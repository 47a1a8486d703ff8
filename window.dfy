/**
 * The window of days a multi-day report walks: from a first to a last
 * date, one day at a time, keeping a day when it has entries or when empty
 * days are wanted. Both report engines walk it the same way.
 */
module Window {
  import opened Chrono
  import opened TimeLog
  import opened Grouping

  /** The days from `first` to `last` that have entries (all of them when `inc`), ascending. */
  function IncludedDays(forDay: Date -> seq<LogEntry>, first: Date, last: Date, inc: bool): seq<Date>
    decreases last - first + 1
  {
    if last < first then []
    else IncludedDays(forDay, first, last - 1, inc) + (if forDay(last) != [] || inc then [last] else [])
  }

  predicate Ascending(ds: seq<Date>) {
    forall i, j :: 0 <= i < j < |ds| ==> ds[i] < ds[j]
  }

  /**
   * The included days are strictly ascending, lie in `[first, last]`, and
   * a day is among them exactly when it has entries or `inc` holds.
   */
  lemma {:induction false} IncludedDaysSpec(forDay: Date -> seq<LogEntry>, first: Date, last: Date, inc: bool)
    ensures Ascending(IncludedDays(forDay, first, last, inc))
    ensures forall d :: (d in IncludedDays(forDay, first, last, inc) <==> first <= d <= last && (forDay(d) != [] || inc))
    decreases last - first + 1
  {
    if first <= last {
      var earlier := IncludedDays(forDay, first, last - 1, inc);
      IncludedDaysSpec(forDay, first, last - 1, inc);
      var tail := if forDay(last) != [] || inc then [last] else [];
      var ds := IncludedDays(forDay, first, last, inc);
      assert ds == earlier + tail;
      forall i, j | 0 <= i < j < |ds| ensures ds[i] < ds[j] {
        assert ds[i] == earlier[i] && earlier[i] in earlier;
        if j < |earlier| {
          assert ds[j] == earlier[j];
        } else {
          assert ds[j] == last;
        }
      }
    }
  }

  /** With `inc`, every day of the window is included. */
  lemma {:induction false} IncludedDaysCount(forDay: Date -> seq<LogEntry>, first: Date, last: Date)
    requires first <= last + 1
    ensures |IncludedDays(forDay, first, last, true)| == last - first + 1
    decreases last - first + 1
  {
    if first <= last {
      IncludedDaysCount(forDay, first, last - 1);
    }
  }

  /** The sum of the durations of all the entries of the given days. */
  function DayTotals(forDay: Date -> seq<LogEntry>, dates: seq<Date>): Duration
    decreases |dates|
  {
    if dates == [] then 0 else SumTime(forDay(dates[0])) + DayTotals(forDay, dates[1..])
  }

  lemma {:induction false} DayTotalsAppend(forDay: Date -> seq<LogEntry>, a: seq<Date>, b: seq<Date>)
    ensures DayTotals(forDay, a + b) == DayTotals(forDay, a) + DayTotals(forDay, b)
    decreases |a|
  {
    if a == [] {
      assert a + b == b;
    } else {
      assert (a + b)[1..] == a[1..] + b;
      DayTotalsAppend(forDay, a[1..], b);
    }
  }

  /** Leaving out the empty days does not change the total of a window. */
  lemma {:induction false} WindowTotalIgnoresEmptyDays(forDay: Date -> seq<LogEntry>, first: Date, last: Date)
    ensures DayTotals(forDay, IncludedDays(forDay, first, last, false)) == DayTotals(forDay, IncludedDays(forDay, first, last, true))
    decreases last - first + 1
  {
    if first <= last {
      var busy := IncludedDays(forDay, first, last - 1, false);
      var all := IncludedDays(forDay, first, last - 1, true);
      WindowTotalIgnoresEmptyDays(forDay, first, last - 1);
      assert IncludedDays(forDay, first, last, true) == all + [last];
      DayTotalsAppend(forDay, all, [last]);
      if forDay(last) != [] {
        assert IncludedDays(forDay, first, last, false) == busy + [last];
        DayTotalsAppend(forDay, busy, [last]);
      } else {
        assert IncludedDays(forDay, first, last, false) == busy + [];
        assert busy + [] == busy;
      }
    }
  }
}
