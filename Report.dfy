/** The daily report: statistics over the bills the store returns for
    today's date. Every statistic is a fold over that list. */
module Report {
  import opened Optional
  import opened Folds

  /** A row of `bills` as fetched; `total` is a nullable column. */
  datatype BillRecord = BillRecord(id: int, total: Option<int>, cash: int, upi: int, date: string)

  /** The fetch's `{ data, error }`. */
  datatype FetchResult = FetchResult(data: Option<seq<BillRecord>>, failed: bool)

  /** The list the page holds after the fetch: on an error it keeps its
      initial empty list; otherwise `data || []`. */
  function LoadedBills(r: FetchResult): (bills: seq<BillRecord>)
    ensures r.failed ==> bills == []
    ensures !r.failed && r.data.Some? ==> bills == r.data.value
  {
    if r.failed then [] else r.data.GetOr([])
  }

  /** `bill.total || 0`. `Math.max` and `Math.min` turn a `null` total into
      0 as well, so every statistic reads a bill's total this way. */
  function TotalOf(b: BillRecord): int
  {
    b.total.GetOr(0)
  }

  /** `total`. */
  function Total(bills: seq<BillRecord>): int
  {
    Sum(TotalOf, bills)
  }

  /** `billCount`. */
  function Count(bills: seq<BillRecord>): nat
  {
    |bills|
  }

  /** `bills.map(b => b.total)` as the report reads it. */
  function Totals(bills: seq<BillRecord>): (r: seq<int>)
    ensures |r| == |bills| && forall k :: 0 <= k < |bills| ==> r[k] == TotalOf(bills[k])
  {
    seq(|bills|, k requires 0 <= k < |bills| => TotalOf(bills[k]))
  }

  /** `Math.max(...s)` of a non-empty list. */
  function Max(s: seq<int>): (m: int)
    requires s != []
    ensures forall k :: 0 <= k < |s| ==> s[k] <= m
    ensures exists k :: 0 <= k < |s| && s[k] == m
  {
    if |s| == 1 then s[0]
    else
      var rest := Max(s[..|s| - 1]);
      if s[|s| - 1] > rest then s[|s| - 1] else rest
  }

  /** `Math.min(...s)` of a non-empty list. */
  function Min(s: seq<int>): (m: int)
    requires s != []
    ensures forall k :: 0 <= k < |s| ==> m <= s[k]
    ensures exists k :: 0 <= k < |s| && s[k] == m
  {
    if |s| == 1 then s[0]
    else
      var rest := Min(s[..|s| - 1]);
      if s[|s| - 1] < rest then s[|s| - 1] else rest
  }

  /** `t / n` as a real number. */
  function Ratio(t: int, n: int): real
    requires n > 0
  {
    t as real / n as real
  }

  /** The average card: `total / billCount`, or 0 without bills. */
  function Average(bills: seq<BillRecord>): real
  {
    if Count(bills) > 0 then Ratio(Total(bills), Count(bills)) else 0.0
  }

  /** The highest-bill card, 0 without bills. */
  function Highest(bills: seq<BillRecord>): int
  {
    if |bills| > 0 then Max(Totals(bills)) else 0
  }

  /** The lowest-bill card, 0 without bills. */
  function Lowest(bills: seq<BillRecord>): int
  {
    if |bills| > 0 then Min(Totals(bills)) else 0
  }

  /** `bills.slice(0, 10)`: the recent-transactions list. */
  function Recent(bills: seq<BillRecord>): (r: seq<BillRecord>)
    ensures |r| == if |bills| < 10 then |bills| else 10
    ensures r == bills[..|r|]
  {
    if |bills| <= 10 then bills else bills[..10]
  }

  /** The report's cards. */
  datatype Summary = Summary(total: int, count: nat, average: real, highest: int, lowest: int)

  function Summarize(bills: seq<BillRecord>): Summary
  {
    Summary(Total(bills), Count(bills), Average(bills), Highest(bills), Lowest(bills))
  }

  /** Without bills every card reads 0; in particular after a failed fetch. */
  lemma EmptyReport(r: FetchResult)
    requires r.failed || r.data == None || r.data == Some([])
    ensures Summarize(LoadedBills(r)) == Summary(0, 0, 0.0, 0, 0)
    ensures Recent(LoadedBills(r)) == []
  {
  }

  /** The total reads each bill's total once, a missing one as 0. */
  lemma {:induction false} TotalSplits(a: seq<BillRecord>, b: seq<BillRecord>)
    ensures Total(a + b) == Total(a) + Total(b)
    ensures Total([]) == 0
  {
    SumAppend(TotalOf, a, b);
  }

  /** With bills, no bill's total is above the highest card or below the
      lowest card. */
  lemma HighestAndLowestBound(bills: seq<BillRecord>)
    requires bills != []
    ensures forall k :: 0 <= k < |bills| ==> Lowest(bills) <= TotalOf(bills[k]) <= Highest(bills)
  {
    var t := Totals(bills);
    assert forall k :: 0 <= k < |bills| ==> t[k] == TotalOf(bills[k]);
  }

  /** With bills, the highest and the lowest card each show the total of an
      actual bill. */
  lemma HighestAndLowestAttained(bills: seq<BillRecord>)
    requires bills != []
    ensures exists k :: 0 <= k < |bills| && TotalOf(bills[k]) == Highest(bills)
    ensures exists k :: 0 <= k < |bills| && TotalOf(bills[k]) == Lowest(bills)
  {
    var t := Totals(bills);
    var hi :| 0 <= hi < |t| && t[hi] == Max(t);
    assert TotalOf(bills[hi]) == Highest(bills);
    var lo :| 0 <= lo < |t| && t[lo] == Min(t);
    assert TotalOf(bills[lo]) == Lowest(bills);
  }

  /** Dividing bounds on `c` copies of a value by `c`. */
  lemma DivideBounds(t: int, n: int, lo: int, hi: int)
    requires n > 0
    requires n * lo <= t <= n * hi
    ensures lo as real <= Ratio(t, n) <= hi as real
    ensures Ratio(t, n) * n as real == t as real
  {
    var c := n as real;
    assert (n * lo) as real == c * lo as real;
    assert (n * hi) as real == c * hi as real;
  }

  /** With bills, the average lies between the lowest and the highest bill,
      and `average * count` gives back the total. */
  lemma {:induction false} AverageBetweenLowestAndHighest(bills: seq<BillRecord>)
    requires bills != []
    ensures Lowest(bills) as real <= Average(bills) <= Highest(bills) as real
    ensures Average(bills) * Count(bills) as real == Total(bills) as real
  {
    var lo, hi, n, total := Lowest(bills), Highest(bills), |bills|, Total(bills);
    HighestAndLowestBound(bills);
    SumLowerBound(TotalOf, bills, lo);
    SumUpperBound(TotalOf, bills, hi);
    assert n * lo <= total <= n * hi;
    DivideBounds(total, n, lo, hi);
  }

  /** The two bills of 100 and 50 report 150 in all, 2 bills, an average of
      75, a highest of 100 and a lowest of 50. */
  lemma TwoBillReport()
    ensures var bills := [BillRecord(1, Some(100), 100, 0, "2024-01-01"), BillRecord(2, Some(50), 0, 50, "2024-01-01")];
      Summarize(bills) == Summary(150, 2, 75.0, 100, 50)
  {
    var bills := [BillRecord(1, Some(100), 100, 0, "2024-01-01"), BillRecord(2, Some(50), 0, 50, "2024-01-01")];
    assert bills[..1] == [bills[0]] && bills[..1][..0] == [];
    assert Total(bills) == 150 by {
      assert Sum(TotalOf, bills[..1]) == Sum(TotalOf, []) + TotalOf(bills[0]);
    }
    assert Totals(bills) == [100, 50];
    assert [100, 50][..1] == [100];
  }
}
