/**
 * The fuel-record table: a search box filtering by station or location, a sortable
 * date column, and pages of ten records.
 */
module FuelRecordTable {
  import opened JsRuntime
  import opened FuelTypes
  import opened Paging
  import opened Subsequences

  const RecordsPerPage: nat := 10

  /** The record's station or location contains the search term, ignoring ASCII case. */
  predicate Matches(r: FuelRecord, term: string) {
    Includes(Lower(r.gasStation), Lower(term)) || Includes(Lower(r.location), Lower(term))
  }

  /** `records.filter(...)` with the search predicate. */
  function Filter(records: seq<FuelRecord>, term: string): (kept: seq<FuelRecord>)
    ensures |kept| <= |records|
  {
    if records == [] then []
    else if Matches(records[0], term) then [records[0]] + Filter(records[1..], term)
    else Filter(records[1..], term)
  }

  /** A record survives the search exactly when it is one of the records and it matches. */
  lemma {:induction false} FilterMembership(records: seq<FuelRecord>, term: string, r: FuelRecord)
    ensures r in Filter(records, term) <==> r in records && Matches(r, term)
  {
    if records != [] {
      FilterMembership(records[1..], term, r);
      assert r in records <==> r == records[0] || r in records[1..];
    }
  }

  /** The search keeps the surviving records in their original order. */
  lemma {:induction false} FilterIsSubsequence(records: seq<FuelRecord>, term: string)
    ensures IsSubsequence(Filter(records, term), records)
  {
    if records != [] {
      FilterIsSubsequence(records[1..], term);
      var rest := Filter(records[1..], term);
      if Matches(records[0], term) {
        assert Filter(records, term)[1..] == rest;
      } else {
        SubsequenceOfTail(rest, records);
      }
    }
  }

  /** An empty search term keeps every record. */
  lemma {:induction false} EmptySearchKeepsAll(records: seq<FuelRecord>)
    ensures Filter(records, "") == records
  {
    if records != [] {
      EmptySearchKeepsAll(records[1..]);
      assert Lower("") == "";
      assert Matches(records[0], "");
    }
  }

  /** The table's own state: the search text, the sort column and direction, the 1-based page. */
  datatype TableState = TableState(searchTerm: string, orderBy: Column, order: Order, page: int)

  const InitialTable: TableState := TableState("", DateColumn, Desc, 1)

  /**
   * `handleSort`: clicking the active column while it is ascending makes it descending;
   * any other click sorts ascending by the clicked column.
   */
  function SortClicked(st: TableState, p: Column): (next: TableState)
    ensures next.orderBy == p
    ensures next.order == Desc <==> st.orderBy == p && st.order == Asc
    ensures next.searchTerm == st.searchTerm && next.page == st.page
  {
    st.(order := if st.orderBy == p && st.order == Asc then Desc else Asc, orderBy := p)
  }

  /** Clicking the same column again always flips the direction. */
  lemma {:induction false} RepeatedSortClickFlips(st: TableState, p: Column)
    ensures SortClicked(SortClicked(st, p), p).order != SortClicked(st, p).order
  {
  }

  /** The search box as written: only the term changes, the page stays where it was. */
  function SearchAsWritten(st: TableState, term: string): (next: TableState)
    ensures next == st.(searchTerm := term)
  {
    st.(searchTerm := term)
  }

  /** The search box with the page brought back to the first one. */
  function Search(st: TableState, term: string): (next: TableState)
    ensures next.searchTerm == term && next.page == 1
    ensures next.orderBy == st.orderBy && next.order == st.order
  {
    st.(searchTerm := term, page := 1)
  }

  /** The records of page `page` (1-based): `sorted.slice((page - 1) * 10, page * 10)`. */
  function PageRecords(sorted: seq<FuelRecord>, page: int): seq<FuelRecord> {
    JsSlice(sorted, (page - 1) * RecordsPerPage, page * RecordsPerPage)
  }

  /** The 1-based table page is the zero-based page window one lower, so it holds at most ten records. */
  lemma {:induction false} PageRecordsWindow(sorted: seq<FuelRecord>, page: nat)
    requires page >= 1
    ensures PageRecords(sorted, page) == PageOf(sorted, page - 1, RecordsPerPage)
    ensures |PageRecords(sorted, page)| <= RecordsPerPage
    ensures PageRecords(sorted, page) == [] <==> page > CeilDiv(|sorted|, RecordsPerPage)
  {
    assert (page - 1) * RecordsPerPage + RecordsPerPage == page * RecordsPerPage;
    PageShape(sorted, page - 1, RecordsPerPage);
    PageEmptyIffPastEnd(sorted, page - 1, RecordsPerPage);
  }

  /** Pages 1 .. totalPages, laid end to end, are the sorted records. */
  lemma {:induction false} TablePagesCover(sorted: seq<FuelRecord>)
    ensures FirstPages(sorted, RecordsPerPage, CeilDiv(|sorted|, RecordsPerPage)) == sorted
  {
    PagesCover(sorted, RecordsPerPage);
  }

  /**
   * As written, a search that narrows the list to ten records or fewer while the user is on
   * page 2 or later shows an empty page and hides the pager (there is only one page), so the
   * matching records cannot be reached until the search is cleared.
   */
  lemma {:induction false} StalePageHidesMatches(records: seq<FuelRecord>, st: TableState, term: string,
                                                  sorted: seq<FuelRecord>)
    requires st.page >= 2
    requires multiset(sorted) == multiset(Filter(records, term))
    requires 0 < |Filter(records, term)| <= RecordsPerPage
    ensures sorted != []
    ensures PageRecords(sorted, SearchAsWritten(st, term).page) == []
    ensures !(CeilDiv(|sorted|, RecordsPerPage) > 1)
  {
    assert |sorted| == |multiset(sorted)| == |Filter(records, term)|;
    PageRecordsWindow(sorted, st.page);
  }

  /** With the page reset, a search that matches anything always shows its first matches. */
  lemma {:induction false} SearchShowsMatches(records: seq<FuelRecord>, st: TableState, term: string,
                                              sorted: seq<FuelRecord>)
    requires multiset(sorted) == multiset(Filter(records, term))
    requires Filter(records, term) != []
    ensures PageRecords(sorted, Search(st, term).page) != []
    ensures PageRecords(sorted, Search(st, term).page) == sorted[..Min(RecordsPerPage, |sorted|)]
  {
    assert |sorted| == |multiset(sorted)| == |Filter(records, term)|;
    PageRecordsWindow(sorted, 1);
    PageShape(sorted, 0, RecordsPerPage);
  }

  /** What the component renders for a list of records. */
  datatype TableView =
    | EmptyState
    | Listing(sorted: seq<FuelRecord>, totalPages: nat, pageRecords: seq<FuelRecord>, showPager: bool)

  class RecordTable {
    var searchTerm: string
    var orderBy: Column
    var order: Order
    var page: int

    function State(): TableState
      reads this
    {
      TableState(searchTerm, orderBy, order, page)
    }

    /** Sorted by date, newest first, on page 1, with no search. */
    constructor ()
      ensures State() == InitialTable
    {
      searchTerm, orderBy, order, page := "", DateColumn, Desc, 1;
    }

    method HandleSort(p: Column)
      modifies this
      ensures State() == SortClicked(old(State()), p)
    {
      var isAsc := orderBy == p && order == Asc;
      order := if isAsc then Desc else Asc;
      orderBy := p;
    }

    /** The pager reports a new 1-based page; nothing else changes. */
    method HandlePageChange(value: int)
      modifies this
      ensures State() == old(State()).(page := value)
    {
      page := value;
    }

    /**
     * Typing in the search box: only the term changes and the page stays where it was
     * (`SearchAsWritten`; `Search` is the handler that also returns to page 1).
     */
    method SetSearchTerm(term: string)
      modifies this
      ensures State() == SearchAsWritten(old(State()), term)
    {
      searchTerm := term;
    }

    /**
     * Rendering: no records gives the empty state; otherwise the search result is copied,
     * the copy sorted (by date in the chosen direction, any other column leaving the order
     * alone), cut into pages of ten, and the pager shown when there is more than one page.
     */
    method Render(records: seq<FuelRecord>) returns (v: TableView)
      ensures v.EmptyState? <==> records == []
      ensures v.Listing? ==>
        && multiset(v.sorted) == multiset(Filter(records, searchTerm))
        && SortedByKey(v.sorted, orderBy, order)
        && (orderBy != DateColumn ==> v.sorted == Filter(records, searchTerm))
        && v.totalPages == CeilDiv(|v.sorted|, RecordsPerPage)
        && v.pageRecords == PageRecords(v.sorted, page)
        && v.showPager == (v.totalPages > 1)
    {
      var filtered := Filter(records, searchTerm);
      var copy := new FuelRecord[|filtered|](i requires 0 <= i < |filtered| => filtered[i]);
      assert copy[..] == filtered;
      SortRecords(copy, orderBy, order);
      var sorted := copy[..];
      var totalPages := CeilDiv(|sorted|, RecordsPerPage);
      var pageRecords := JsSlice(sorted, (page - 1) * RecordsPerPage, page * RecordsPerPage);
      if records == [] {
        v := EmptyState;
      } else {
        v := Listing(sorted, totalPages, pageRecords, totalPages > 1);
      }
    }
  }
}
