/**
 * Fuel records as the server returns them, the record a form submits, and the
 * date ordering the record screens sort by. Dates are millisecond timestamps.
 */
module FuelTypes {
  import opened JsRuntime

  datatype FuelRecord = FuelRecord(
    id: string,
    date: int,
    liters: real,
    pricePerLiter: real,
    totalCost: real,
    gasStation: string,
    location: string,
    userId: string)

  /** A record without its server-assigned `_id` and `userId`, as the forms build it. */
  datatype RecordDraft = RecordDraft(
    date: int,
    liters: Number,
    pricePerLiter: Number,
    totalCost: Number,
    gasStation: string,
    location: string)

  /** The columns of a fuel record (`keyof FuelRecord`). */
  datatype Column = IdColumn | DateColumn | LitersColumn | PriceColumn | TotalColumn
                  | StationColumn | LocationColumn | UserColumn

  datatype Order = Asc | Desc

  /**
   * The number a sort comparator subtracts: sorting by `date` compares timestamps,
   * newest last for `Asc` and newest first for `Desc`; every other column compares
   * equal.
   */
  function SortKey(r: FuelRecord, column: Column, order: Order): int {
    if column == DateColumn then (if order == Asc then r.date else -r.date) else 0
  }

  predicate SortedByKey(s: seq<FuelRecord>, column: Column, order: Order) {
    forall i, j :: 0 <= i < j < |s| ==> SortKey(s[i], column, order) <= SortKey(s[j], column, order)
  }

  /** Newest first: dates never increase along the sequence. */
  predicate NewestFirst(s: seq<FuelRecord>) {
    forall i, j :: 0 <= i < j < |s| ==> s[i].date >= s[j].date
  }

  predicate OldestFirst(s: seq<FuelRecord>) {
    forall i, j :: 0 <= i < j < |s| ==> s[i].date <= s[j].date
  }

  /** Sorting by date in descending order is sorting newest first, and ascending is oldest first. */
  lemma {:induction false} SortedByDateMeaning(s: seq<FuelRecord>)
    ensures SortedByKey(s, DateColumn, Desc) <==> NewestFirst(s)
    ensures SortedByKey(s, DateColumn, Asc) <==> OldestFirst(s)
  {
    if SortedByKey(s, DateColumn, Desc) {
      forall i, j | 0 <= i < j < |s| ensures s[i].date >= s[j].date {
        assert SortKey(s[i], DateColumn, Desc) <= SortKey(s[j], DateColumn, Desc);
      }
    }
    if NewestFirst(s) {
      forall i, j | 0 <= i < j < |s| ensures SortKey(s[i], DateColumn, Desc) <= SortKey(s[j], DateColumn, Desc) {
        assert s[i].date >= s[j].date;
      }
    }
    if SortedByKey(s, DateColumn, Asc) {
      forall i, j | 0 <= i < j < |s| ensures s[i].date <= s[j].date {
        assert SortKey(s[i], DateColumn, Asc) <= SortKey(s[j], DateColumn, Asc);
      }
    }
  }

  /** The first `n` records are in key order, except that position `j` may not be. */
  predicate SortedExcept(s: seq<FuelRecord>, n: nat, j: nat, column: Column, order: Order)
    requires n <= |s|
  {
    forall p, q :: 0 <= p < q < n && p != j && q != j ==> SortKey(s[p], column, order) <= SortKey(s[q], column, order)
  }

  /** Every record from `j + 1` up to `i` has a key at least that of position `j`. */
  predicate AtMostFollowers(s: seq<FuelRecord>, j: nat, i: nat, column: Column, order: Order)
    requires j <= i < |s|
  {
    forall q :: j < q <= i ==> SortKey(s[j], column, order) <= SortKey(s[q], column, order)
  }

  /** Swapping the record at `j` with a predecessor that has a larger key keeps the insertion invariants. */
  lemma SwapStep(s: seq<FuelRecord>, t: seq<FuelRecord>, j: nat, i: nat, column: Column, order: Order)
    requires 0 < j <= i < |s| == |t|
    requires SortedExcept(s, i + 1, j, column, order) && AtMostFollowers(s, j, i, column, order)
    requires SortKey(s[j - 1], column, order) > SortKey(s[j], column, order)
    requires t == s[j - 1 := s[j]][j := s[j - 1]]
    ensures SortedExcept(t, i + 1, j - 1, column, order) && AtMostFollowers(t, j - 1, i, column, order)
  {
  }

  /** When the moving record has no larger predecessor, the first `i + 1` records are sorted. */
  lemma InsertDone(s: seq<FuelRecord>, j: nat, i: nat, column: Column, order: Order)
    requires j <= i < |s|
    requires SortedExcept(s, i + 1, j, column, order) && AtMostFollowers(s, j, i, column, order)
    requires j == 0 || SortKey(s[j - 1], column, order) <= SortKey(s[j], column, order)
    ensures SortedByKey(s[..i + 1], column, order)
  {
    forall p, q | 0 <= p < q < i + 1
      ensures SortKey(s[p], column, order) <= SortKey(s[q], column, order)
    {
      if q == j && p < j - 1 {
        assert SortKey(s[p], column, order) <= SortKey(s[j - 1], column, order);
      }
    }
  }

  /** Exchanging two neighbours keeps the same records. */
  lemma SwapKeepsRecords(s: seq<FuelRecord>, j: nat)
    requires 0 < j < |s|
    ensures multiset(s[j - 1 := s[j]][j := s[j - 1]]) == multiset(s)
  {
  }

  /**
   * `Array.prototype.sort` with the date comparator, in place: an insertion sort by
   * adjacent swaps, which never moves two records the comparator calls equal, so a
   * comparator that always answers 0 leaves the array as it was.
   */
  method SortRecords(a: array<FuelRecord>, column: Column, order: Order)
    modifies a
    ensures SortedByKey(a[..], column, order)
    ensures multiset(a[..]) == multiset(old(a[..]))
    ensures column != DateColumn ==> a[..] == old(a[..])
  {
    var i := 0;
    while i < a.Length
      invariant 0 <= i <= a.Length
      invariant SortedByKey(a[..i], column, order)
      invariant multiset(a[..]) == multiset(old(a[..]))
      invariant column != DateColumn ==> a[..] == old(a[..])
    {
      InsertAt(a, i, column, order);
      i := i + 1;
    }
    assert a[..a.Length] == a[..];
  }

  /** One insertion step: the record at `i` moves left past every record with a larger key. */
  method InsertAt(a: array<FuelRecord>, i: nat, column: Column, order: Order)
    requires i < a.Length
    requires SortedByKey(a[..i], column, order)
    modifies a
    ensures SortedByKey(a[..i + 1], column, order)
    ensures multiset(a[..]) == multiset(old(a[..]))
    ensures column != DateColumn ==> a[..] == old(a[..])
  {
    var j := i;
    assert SortedExcept(a[..], i + 1, j, column, order) by {
      forall p, q | 0 <= p < q < i + 1 && p != j && q != j
        ensures SortKey(a[..][p], column, order) <= SortKey(a[..][q], column, order)
      {
        assert a[..i][p] == a[p] && a[..i][q] == a[q];
      }
    }
    while 0 < j && SortKey(a[j - 1], column, order) > SortKey(a[j], column, order)
      invariant 0 <= j <= i
      invariant SortedExcept(a[..], i + 1, j, column, order)
      invariant AtMostFollowers(a[..], j, i, column, order)
      invariant multiset(a[..]) == multiset(old(a[..]))
      invariant column != DateColumn ==> a[..] == old(a[..])
    {
      assert column == DateColumn;
      ghost var s := a[..];
      a[j - 1], a[j] := a[j], a[j - 1];
      assert a[..] == s[j - 1 := s[j]][j := s[j - 1]];
      SwapKeepsRecords(s, j);
      SwapStep(s, a[..], j, i, column, order);
      j := j - 1;
    }
    InsertDone(a[..], j, i, column, order);
    assert a[..][..i + 1] == a[..i + 1];
  }
}
