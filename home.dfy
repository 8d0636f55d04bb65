/**
 * The dashboard: the five most recent fuel records and three figures computed from
 * them (total spent, mean price per liter, and the price trend in percent).
 */
module Home {
  import opened JsRuntime
  import opened FuelTypes
  import opened Paging

  const RecentCount: nat := 5

  /**
   * `recent` is what the dashboard shows for the fetched list: at most five records,
   * newest first, taken from the fetched ones, and no fetched record left out is newer
   * than one that is shown.
   */
  predicate IsRecentSelection(recent: seq<FuelRecord>, fetched: seq<FuelRecord>) {
    && |recent| == Min(RecentCount, |fetched|)
    && NewestFirst(recent)
    && multiset(recent) <= multiset(fetched)
    && forall r, x :: r in recent && x in multiset(fetched) - multiset(recent) ==> r.date >= x.date
  }

  /** The first k records of a newest-first list are at least as new as every record after them. */
  lemma {:induction false} NewestPrefix(s: seq<FuelRecord>, k: nat)
    requires NewestFirst(s) && k <= |s|
    ensures multiset(s[..k]) <= multiset(s)
    ensures forall r, x :: r in s[..k] && x in multiset(s) - multiset(s[..k]) ==> r.date >= x.date
  {
    assert s == s[..k] + s[k..];
    assert multiset(s) == multiset(s[..k]) + multiset(s[k..]);
    forall r, x | r in s[..k] && x in multiset(s) - multiset(s[..k])
      ensures r.date >= x.date
    {
      assert x in multiset(s[k..]);
      assert x in s[k..];
      var i :| 0 <= i < k && s[..k][i] == r;
      var j :| 0 <= j < |s| - k && s[k..][j] == x;
      assert s[i] == r && s[k + j] == x;
    }
  }

  class RecentRecords {
    var records: seq<FuelRecord>

    constructor ()
      ensures records == []
    {
      records := [];
    }

    /**
     * `loadRecentRecords`: the fetched array is sorted newest first in place and its
     * first five records become the shown list; a failed fetch changes nothing.
     */
    method LoadRecentRecords(data: array<FuelRecord>, fetched: bool)
      modifies this, data
      ensures fetched ==> IsRecentSelection(records, old(data[..]))
      ensures fetched ==> NewestFirst(data[..]) && records == data[..Min(RecentCount, data.Length)]
      ensures !fetched ==> records == old(records) && data[..] == old(data[..])
    {
      if fetched {
        SortRecords(data, DateColumn, Desc);
        SortedByDateMeaning(data[..]);
        var k := Min(RecentCount, data.Length);
        NewestPrefix(data[..], k);
        assert data[..][..k] == data[..k];
        records := data[..k];
        assert NewestFirst(records) by {
          forall i, j | 0 <= i < j < |records| ensures records[i].date >= records[j].date {
            assert records[i] == data[..][i] && records[j] == data[..][j];
          }
        }
      }
    }
  }

  function SumCost(s: seq<FuelRecord>): real {
    if s == [] then 0.0 else s[0].totalCost + SumCost(s[1..])
  }

  function SumPrice(s: seq<FuelRecord>): real {
    if s == [] then 0.0 else s[0].pricePerLiter + SumPrice(s[1..])
  }

  datatype Stats = Stats(totalMonth: real, avgPrice: real, trend: Number)

  /** The arithmetic mean of the prices per liter of a non-empty list. */
  function MeanPrice(records: seq<FuelRecord>): (mean: real)
    requires records != []
    ensures mean * (|records| as real) == SumPrice(records)
  {
    SumPrice(records) / (|records| as real)
  }

  /**
   * `calculateStats`: all zero for no records; otherwise the sum of the costs, the mean
   * price per liter, and the change from the last (oldest) shown price to the first
   * (newest) one in percent of the oldest, which is 0 for a single record and not a
   * finite number when the oldest price is 0.
   */
  function CalculateStats(records: seq<FuelRecord>): (st: Stats)
    ensures records == [] ==> st == Stats(0.0, 0.0, Finite(0.0))
    ensures records != [] ==> st.totalMonth == SumCost(records)
    ensures records != [] ==> st.avgPrice * (|records| as real) == SumPrice(records)
    ensures |records| <= 1 ==> st.trend == Finite(0.0)
  {
    if |records| == 0 then Stats(0.0, 0.0, Finite(0.0))
    else
      var n := |records|;
      var trend :=
        if n > 1 then
          Mul(Div(Finite(records[0].pricePerLiter - records[n - 1].pricePerLiter),
                  Finite(records[n - 1].pricePerLiter)),
              Finite(100.0))
        else Finite(0.0);
      Stats(SumCost(records), MeanPrice(records), trend)
  }

  /** If every price lies in [lo, hi], their sum lies between n * lo and n * hi. */
  lemma {:induction false} SumPriceBounds(s: seq<FuelRecord>, lo: real, hi: real)
    requires forall i :: 0 <= i < |s| ==> lo <= s[i].pricePerLiter <= hi
    ensures (|s| as real) * lo <= SumPrice(s) <= (|s| as real) * hi
  {
    if s != [] {
      SumPriceBounds(s[1..], lo, hi);
      assert (|s| as real) * lo == lo + ((|s| - 1) as real) * lo;
      assert (|s| as real) * hi == hi + ((|s| - 1) as real) * hi;
    }
  }

  /** The mean price lies between the lowest and the highest shown price. */
  lemma {:induction false} AveragePriceWithinRange(records: seq<FuelRecord>, lo: real, hi: real)
    requires records != []
    requires forall i :: 0 <= i < |records| ==> lo <= records[i].pricePerLiter <= hi
    ensures lo <= CalculateStats(records).avgPrice <= hi
  {
    MeanWithinRange(records, lo, hi);
  }

  lemma MeanWithinRange(records: seq<FuelRecord>, lo: real, hi: real)
    requires records != []
    requires forall i :: 0 <= i < |records| ==> lo <= records[i].pricePerLiter <= hi
    ensures lo <= MeanPrice(records) <= hi
  {
    SumPriceBounds(records, lo, hi);
    CancelFactor(MeanPrice(records), |records| as real, lo, hi);
  }

  lemma CancelFactor(a: real, n: real, lo: real, hi: real)
    requires n > 0.0 && n * lo <= a * n <= n * hi
    ensures lo <= a <= hi
  {
    assert (a - lo) * n >= 0.0;
    assert (hi - a) * n >= 0.0;
  }

  /**
   * With a positive oldest price the trend is a finite percentage whose sign is the sign
   * of newest minus oldest: positive exactly when the price went up.
   */
  lemma {:induction false} TrendFollowsPriceChange(records: seq<FuelRecord>)
    requires |records| > 1
    requires records[|records| - 1].pricePerLiter > 0.0
    ensures CalculateStats(records).trend.Finite?
    ensures var first := records[0].pricePerLiter;
            var last := records[|records| - 1].pricePerLiter;
            && CalculateStats(records).trend.val == (first - last) / last * 100.0
            && (CalculateStats(records).trend.val > 0.0 <==> first > last)
            && (CalculateStats(records).trend.val == 0.0 <==> first == last)
  {
    var first := records[0].pricePerLiter;
    var last := records[|records| - 1].pricePerLiter;
    var q := (first - last) / last;
    assert q * last == first - last;
    if first > last {
      assert q > 0.0;
    } else if first < last {
      assert q < 0.0;
    } else {
      assert q == 0.0;
    }
  }

  /** An oldest price of 0 makes the trend a division by zero, which is not a finite number. */
  lemma {:induction false} TrendUndefinedAtZeroPrice(records: seq<FuelRecord>)
    requires |records| > 1
    requires records[|records| - 1].pricePerLiter == 0.0
    ensures !CalculateStats(records).trend.Finite?
  {
  }
}
