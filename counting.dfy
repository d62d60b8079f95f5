/**
 * The rows a window's query returns and the per-date row counts the job keeps: each
 * non-empty batch is grouped by the calendar date of its date column
 * (`groupby(df[col].dt.date).size()`), the groups are appended to one accumulator, and at
 * the end the accumulator is grouped by date again and summed.
 */
module Counting {
  import opened Dates

  /** A value of the date column: a calendar date and the seconds since its midnight. */
  datatype Timestamp = Timestamp(date: Date, second: nat)

  predicate StampBefore(a: Timestamp, b: Timestamp) {
    Before(a.date, b.date) || (a.date == b.date && a.second < b.second)
  }

  /** A `'YYYY-MM-DD'` literal compared with a timestamp stands for that day's midnight. */
  function Midnight(d: Date): Timestamp {
    Timestamp(d, 0)
  }

  /** A row of the source table; only its date column matters to the job's logic. */
  datatype Row = Row(stamp: Timestamp)

  /** `.dt.date`: the calendar date of a row's date column. */
  function DateOf(r: Row): Date {
    r.stamp.date
  }

  /** `col >= '<start>' AND col < '<end>'`. */
  predicate InRange(t: Timestamp, start: Date, end: Date) {
    !StampBefore(t, Midnight(start)) && StampBefore(t, Midnight(end))
  }

  /** Against midnight bounds, a timestamp is in range exactly when its calendar date is. */
  lemma InRangeByDate(t: Timestamp, start: Date, end: Date)
    ensures InRange(t, start, end) <==> AtOrBefore(start, t.date) && Before(t.date, end)
  {
  }

  /**
   * The rows the query of window `[start, end)` returns, in the snapshot's order (standing for
   * whatever order the server returns, as the query has no ORDER BY): every source row whose
   * date column is in range, as often as it occurs in the source, and nothing else.
   */
  function Extract(source: seq<Row>, start: Date, end: Date): (rows: seq<Row>)
    ensures |rows| <= |source|
  {
    if source == [] then []
    else
      var rows := Extract(source[..|source| - 1], start, end);
      var last := source[|source| - 1];
      if InRange(last.stamp, start, end) then rows + [last] else rows
  }

  /** Each row is returned as often as it occurs in the source when in range, else never. */
  lemma {:induction false} ExtractCounts(source: seq<Row>, start: Date, end: Date)
    ensures forall r ::
      multiset(Extract(source, start, end))[r] == if InRange(r.stamp, start, end) then multiset(source)[r] else 0
    decreases |source|
  {
    if source != [] {
      var init, last := source[..|source| - 1], source[|source| - 1];
      assert source == init + [last];
      ExtractCounts(init, start, end);
    }
  }

  /** A range split at an inner date returns the same rows, as a bag, as its two halves. */
  lemma ExtractSplit(source: seq<Row>, start: Date, mid: Date, end: Date)
    requires AtOrBefore(start, mid) && AtOrBefore(mid, end)
    ensures multiset(Extract(source, start, end)) ==
      multiset(Extract(source, start, mid)) + multiset(Extract(source, mid, end))
  {
    var whole := multiset(Extract(source, start, end));
    var halves := multiset(Extract(source, start, mid)) + multiset(Extract(source, mid, end));
    ExtractCounts(source, start, end);
    ExtractCounts(source, start, mid);
    ExtractCounts(source, mid, end);
    forall r ensures whole[r] == halves[r] {
      InRangeByDate(r.stamp, start, end);
      InRangeByDate(r.stamp, start, mid);
      InRangeByDate(r.stamp, mid, end);
    }
    assert whole == halves;
  }

  /** A range that ends before it starts returns nothing. */
  lemma ExtractEmptyRange(source: seq<Row>, start: Date, end: Date)
    requires AtOrBefore(end, start)
    ensures Extract(source, start, end) == []
  {
    var rows := Extract(source, start, end);
    if rows != [] {
      var r := rows[0];
      assert multiset(rows)[r] > 0;
      InRangeByDate(r.stamp, start, end);
      ExtractCounts(source, start, end);
      assert false;
    }
  }

  /** The number of rows dated `d`. */
  function Occurrences(rows: seq<Row>, d: Date): nat
  {
    if rows == [] then 0
    else Occurrences(rows[..|rows| - 1], d) + (if DateOf(rows[|rows| - 1]) == d then 1 else 0)
  }

  lemma {:induction false} OccurrencesConcat(a: seq<Row>, b: seq<Row>, d: Date)
    ensures Occurrences(a + b, d) == Occurrences(a, d) + Occurrences(b, d)
    decreases |b|
  {
    if b == [] {
      assert a + b == a;
    } else {
      var ab := a + b;
      assert ab[..|ab| - 1] == a + b[..|b| - 1];
      assert ab[|ab| - 1] == b[|b| - 1];
      OccurrencesConcat(a, b[..|b| - 1], d);
    }
  }

  /** The number of rows of one day in a range: the day's rows if it is in range, else none. */
  lemma {:induction false} OccurrencesInRange(source: seq<Row>, start: Date, end: Date, d: Date)
    ensures Occurrences(Extract(source, start, end), d) ==
      if AtOrBefore(start, d) && Before(d, end) then Occurrences(source, d) else 0
    decreases |source|
  {
    if source != [] {
      var init, last := source[..|source| - 1], source[|source| - 1];
      OccurrencesInRange(init, start, end, d);
      InRangeByDate(last.stamp, start, end);
      var rows := Extract(init, start, end);
      if InRange(last.stamp, start, end) {
        assert (rows + [last])[..|rows + [last]| - 1] == rows;
      }
    }
  }

  /** One line of a count table: a calendar date and a number of rows. */
  datatype DailyCount = DailyCount(date: Date, count: nat)

  /** Dates strictly increase along the table, so no date appears twice. */
  predicate Sorted(g: seq<DailyCount>) {
    forall i, j :: 0 <= i < j < |g| ==> Before(g[i].date, g[j].date)
  }

  predicate Positive(g: seq<DailyCount>) {
    forall i :: 0 <= i < |g| ==> g[i].count >= 1
  }

  function DatesOf(g: seq<DailyCount>): set<Date> {
    set i | 0 <= i < |g| :: g[i].date
  }

  /** The total of the lines for date `d`; missing dates count 0. */
  function CountOf(g: seq<DailyCount>, d: Date): nat
  {
    if g == [] then 0 else (if g[0].date == d then g[0].count else 0) + CountOf(g[1..], d)
  }

  /** The total of all lines. */
  function Total(g: seq<DailyCount>): nat
  {
    if g == [] then 0 else g[0].count + Total(g[1..])
  }

  lemma {:induction false} CountOfConcat(a: seq<DailyCount>, b: seq<DailyCount>, d: Date)
    ensures CountOf(a + b, d) == CountOf(a, d) + CountOf(b, d)
  {
    if a == [] {
      assert a + b == b;
    } else {
      var ab := a + b;
      assert ab[0] == a[0] && ab[1..] == a[1..] + b;
      CountOfConcat(a[1..], b, d);
    }
  }

  lemma {:induction false} TotalConcat(a: seq<DailyCount>, b: seq<DailyCount>)
    ensures Total(a + b) == Total(a) + Total(b)
  {
    if a == [] {
      assert a + b == b;
    } else {
      var ab := a + b;
      assert ab[0] == a[0] && ab[1..] == a[1..] + b;
      TotalConcat(a[1..], b);
    }
  }

  lemma DatesOfCons(x: DailyCount, g: seq<DailyCount>)
    ensures DatesOf([x] + g) == {x.date} + DatesOf(g)
  {
    var r := [x] + g;
    forall y | y in DatesOf(r) ensures y in {x.date} + DatesOf(g) {
      var i :| 0 <= i < |r| && r[i].date == y;
      if i > 0 {
        assert r[i] == g[i - 1];
      }
    }
    forall y | y in DatesOf(g) ensures y in DatesOf(r) {
      var i :| 0 <= i < |g| && g[i].date == y;
      assert r[i + 1] == g[i];
    }
    assert r[0] == x;
  }

  /**
   * Adds `c` rows to date `d` of a sorted table: the line for `d` grows, or a new line is
   * inserted in date order.
   */
  function AddCount(g: seq<DailyCount>, d: Date, c: nat): (r: seq<DailyCount>)
    requires Sorted(g)
    ensures Sorted(r)
    ensures DatesOf(r) == DatesOf(g) + {d}
  {
    if g == [] then
      DatesOfCons(DailyCount(d, c), []);
      [DailyCount(d, c)]
    else if g[0].date == d then
      var r := [DailyCount(d, g[0].count + c)] + g[1..];
      assert g == [g[0]] + g[1..];
      DatesOfCons(r[0], g[1..]);
      DatesOfCons(g[0], g[1..]);
      r
    else if Before(d, g[0].date) then
      DatesOfCons(DailyCount(d, c), g);
      [DailyCount(d, c)] + g
    else
      var tail := AddCount(g[1..], d, c);
      assert g == [g[0]] + g[1..];
      DatesOfCons(g[0], g[1..]);
      DatesOfCons(g[0], tail);
      assert forall i :: 0 <= i < |tail| ==> Before(g[0].date, tail[i].date) by {
        forall i | 0 <= i < |tail| ensures Before(g[0].date, tail[i].date) {
          assert tail[i].date in DatesOf(tail);
          if tail[i].date != d {
            var j :| 0 <= j < |g[1..]| && g[1..][j].date == tail[i].date;
            assert g[1..][j] == g[j + 1];
          }
        }
      }
      [g[0]] + tail
  }

  lemma {:induction false} AddCountCountOf(g: seq<DailyCount>, d: Date, c: nat, x: Date)
    requires Sorted(g)
    ensures CountOf(AddCount(g, d, c), x) == CountOf(g, x) + (if x == d then c else 0)
  {
    var r := AddCount(g, d, c);
    if g == [] {
      assert r[1..] == [];
    } else if g[0].date == d {
      assert r[1..] == g[1..];
    } else if Before(d, g[0].date) {
      assert r[1..] == g;
    } else {
      AddCountCountOf(g[1..], d, c, x);
      assert r[1..] == AddCount(g[1..], d, c);
    }
  }

  lemma {:induction false} AddCountTotal(g: seq<DailyCount>, d: Date, c: nat)
    requires Sorted(g)
    ensures Total(AddCount(g, d, c)) == Total(g) + c
  {
    var r := AddCount(g, d, c);
    if g == [] {
      assert r[1..] == [];
    } else if g[0].date == d {
      assert r[1..] == g[1..];
    } else if Before(d, g[0].date) {
      assert r[1..] == g;
    } else {
      AddCountTotal(g[1..], d, c);
      assert r[1..] == AddCount(g[1..], d, c);
    }
  }

  lemma {:induction false} AddCountPositive(g: seq<DailyCount>, d: Date, c: nat)
    requires Sorted(g) && Positive(g) && c >= 1
    ensures Positive(AddCount(g, d, c))
  {
    var r := AddCount(g, d, c);
    if g != [] && g[0].date != d && !Before(d, g[0].date) {
      AddCountPositive(g[1..], d, c);
      assert r == [g[0]] + AddCount(g[1..], d, c);
    }
  }

  /** Adding `c` rows to `d` raises the count of `d`, and the total, by `c` and no other count. */
  lemma AddCountCounts(g: seq<DailyCount>, d: Date, c: nat)
    requires Sorted(g)
    ensures forall x :: CountOf(AddCount(g, d, c), x) == CountOf(g, x) + (if x == d then c else 0)
    ensures Total(AddCount(g, d, c)) == Total(g) + c
    ensures Positive(g) && c >= 1 ==> Positive(AddCount(g, d, c))
  {
    forall x ensures CountOf(AddCount(g, d, c), x) == CountOf(g, x) + (if x == d then c else 0) {
      AddCountCountOf(g, d, c, x);
    }
    AddCountTotal(g, d, c);
    if Positive(g) && c >= 1 {
      AddCountPositive(g, d, c);
    }
  }

  /**
   * `groupby(df[col].dt.date).size()`: one line per date that occurs in the batch, in date
   * order, each counting that date's rows; the lines add up to the batch's size.
   */
  function GroupByDate(rows: seq<Row>): (g: seq<DailyCount>)
    ensures Sorted(g) && Positive(g)
    ensures forall d :: CountOf(g, d) == Occurrences(rows, d)
    ensures Total(g) == |rows|
    ensures |g| == 0 <==> |rows| == 0
  {
    if rows == [] then []
    else
      var g := GroupByDate(rows[..|rows| - 1]);
      AddCountCounts(g, DateOf(rows[|rows| - 1]), 1);
      AddCount(g, DateOf(rows[|rows| - 1]), 1)
  }

  /**
   * `groupby('date')['count'].sum()` over the accumulator: one line per date that appears
   * in it, in date order, each the sum of that date's lines.
   */
  function SumByDate(acc: seq<DailyCount>): (g: seq<DailyCount>)
    ensures Sorted(g)
    ensures Positive(acc) ==> Positive(g)
    ensures forall d :: CountOf(g, d) == CountOf(acc, d)
    ensures Total(g) == Total(acc)
    ensures |g| == 0 <==> |acc| == 0
  {
    if acc == [] then []
    else
      var init, last := acc[..|acc| - 1], acc[|acc| - 1];
      assert acc == init + [last];
      CountOfLast(init, last);
      TotalConcat(init, [last]);
      assert Positive(acc) ==> Positive(init) by {
        assert forall i :: 0 <= i < |init| ==> init[i] == acc[i];
      }
      AddCountCounts(SumByDate(init), last.date, last.count);
      AddCount(SumByDate(init), last.date, last.count)
  }

  lemma CountOfLast(init: seq<DailyCount>, last: DailyCount)
    ensures forall d :: CountOf(init + [last], d) == CountOf(init, d) + (if last.date == d then last.count else 0)
  {
    forall d ensures CountOf(init + [last], d) == CountOf(init, d) + (if last.date == d then last.count else 0) {
      CountOfConcat(init, [last], d);
    }
  }

  /** In a sorted table the line of a date is the whole count of that date. */
  lemma {:induction false} CountOfSorted(g: seq<DailyCount>, i: nat)
    requires Sorted(g) && i < |g|
    ensures CountOf(g, g[i].date) == g[i].count
  {
    if i == 0 {
      NoCountBeforeHead(g[1..], g[0].date);
    } else {
      CountOfSorted(g[1..], i - 1);
    }
  }

  /** A date earlier than every line of a sorted table has no count in it. */
  lemma {:induction false} NoCountBeforeHead(g: seq<DailyCount>, d: Date)
    requires Sorted(g)
    requires forall i :: 0 <= i < |g| ==> Before(d, g[i].date)
    ensures CountOf(g, d) == 0
  {
    if g != [] {
      NoCountBeforeHead(g[1..], d);
    }
  }

  /**
   * A sorted table of positive counts is determined by its counts: two such tables that
   * agree on every date are the same table.
   */
  lemma {:induction false} SortedCountsDetermine(g: seq<DailyCount>, h: seq<DailyCount>)
    requires Sorted(g) && Positive(g) && Sorted(h) && Positive(h)
    requires forall d :: CountOf(g, d) == CountOf(h, d)
    ensures g == h
    decreases |g| + |h|
  {
    if g == [] && h != [] {
      assert false;
    } else if g != [] && h == [] {
      CountOfSorted(g, 0);
      assert false;
    } else if g != [] && h != [] {
      var a, b := g[0].date, h[0].date;
      CountOfSorted(g, 0);
      CountOfSorted(h, 0);
      if Before(a, b) {
        NoCountBeforeHead(h, a);
      } else if Before(b, a) {
        NoCountBeforeHead(g, b);
      } else {
        assert a == b;
        forall d ensures CountOf(g[1..], d) == CountOf(h[1..], d) {
          assert CountOf(g, d) == (if a == d then g[0].count else 0) + CountOf(g[1..], d);
          assert CountOf(h, d) == (if b == d then h[0].count else 0) + CountOf(h[1..], d);
        }
        SortedCountsDetermine(g[1..], h[1..]);
        assert g == [g[0]] + g[1..] && h == [h[0]] + h[1..];
      }
    }
  }

  /**
   * The accumulator is summation, not set union: appending the same batch's groups twice
   * counts that batch twice.
   */
  lemma MergeTwiceDoubles(acc: seq<DailyCount>, g: seq<DailyCount>, d: Date)
    ensures CountOf(SumByDate(acc + g + g), d) == CountOf(SumByDate(acc), d) + 2 * CountOf(g, d)
  {
    CountOfConcat(acc + g, g, d);
    CountOfConcat(acc, g, d);
  }
}
