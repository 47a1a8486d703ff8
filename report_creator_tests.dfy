/**
 * The unit tests of `report_creator.rs`, restated as lemmas about every
 * report that meets the engine's contracts. Entries are made on the days
 * from 2000-01-01 on, at 04:00:20, lasting the given number of minutes.
 */
module ReportCreatorTests {
  import opened Orders
  import opened Chrono
  import opened PrettyString
  import opened Strings
  import opened TimeLog
  import opened Grouping
  import opened Window
  import opened ReportCreator

  /** 2000-01-01 (see `Chrono.CivilExampleY2K`). */
  const TestDay: Date := 10957

  /** `create_log(day, dur, name)`: day `day` of January 2000, from 04:00:20 for `dur` minutes. */
  function CreateLog(day: int, dur: int, name: string): LogEntry {
    var midnight := (TestDay + day - 1) * SecondsPerDay;
    LogEntry(name, midnight + 4 * 3600 + 20, midnight + 4 * 3600 + dur * 60 + 20)
  }

  /** `test_empty_log`. */
  lemma TestEmptyLog(r: DayReport)
    requires IsDayReportFor(EntriesOn([], TestDay), TestDay, r)
    ensures r.totalDuration == 0 && r.projects == []
  {
    assert EntriesOn([], TestDay) == [];
    EmptyDayReport(TestDay, r);
  }

  /** `test_sum_over_multiple_logs_for_same_project`: 30 and 10 minutes of Foo are 40 minutes of Foo. */
  lemma TestSameProject(r: DayReport)
    requires IsDayReportFor([CreateLog(1, 30, "Foo"), CreateLog(1, 10, "Foo")], TestDay, r)
    ensures r.totalDuration == 40 * 60
    ensures r.projects == [ProjectReport("Foo", 40 * 60)]
  {
    var log := [CreateLog(1, 30, "Foo"), CreateLog(1, 10, "Foo")];
    var expected := DayReport(TestDay, 40 * 60, [ProjectReport("Foo", 40 * 60)]);
    assert KeysOf(log) == {"Foo"} by {
      assert log[0] in log;
    }
    assert WithKey(log, "Foo") == log by {
      assert log[1..] == [log[1]] && log[1..][1..] == [];
    }
    assert SumTime(log) == 40 * 60 by {
      assert log[1..] == [log[1]] && log[1..][1..] == [];
    }
    assert ProjectNames(expected.projects) == {"Foo"} by {
      assert expected.projects[0] in expected.projects;
    }
    assert IsDayReportFor(log, TestDay, expected);
    DayReportUnique(log, TestDay, r, expected);
  }

  /** Foo for 30 minutes and Bar for 10 on 2000-01-01. */
  function FirstDayLog(): seq<LogEntry> {
    [CreateLog(1, 30, "Foo"), CreateLog(1, 10, "Bar")]
  }

  /** `test_sum_over_multiple_logs_for_different_project`: two projects, Bar first, 40 minutes in all. */
  lemma TestDifferentProjects(r: DayReport)
    requires IsDayReportFor(FirstDayLog(), TestDay, r)
    ensures r.totalDuration == 40 * 60
    ensures r.projects == [ProjectReport("Bar", 10 * 60), ProjectReport("Foo", 30 * 60)]
  {
    var expected := DayReport(TestDay, 40 * 60, [ProjectReport("Bar", 10 * 60), ProjectReport("Foo", 30 * 60)]);
    FirstDayReport();
    DayReportUnique(FirstDayLog(), TestDay, r, expected);
  }

  /** The expected report of `FirstDayLog` meets the contract of `report_day`. */
  lemma FirstDayReport()
    ensures IsDayReportFor(FirstDayLog(), TestDay,
              DayReport(TestDay, 40 * 60, [ProjectReport("Bar", 10 * 60), ProjectReport("Foo", 30 * 60)]))
  {
    var log := FirstDayLog();
    var projects := [ProjectReport("Bar", 10 * 60), ProjectReport("Foo", 30 * 60)];
    FirstDayGroups();
    assert ProjectNames(projects) == {"Bar", "Foo"} by {
      assert projects[0] in projects && projects[1] in projects;
    }
    assert StrictlySorted(ByProject, projects) by {
      assert Compare("Bar", "Foo") == Less by { assert "Bar"[0] < "Foo"[0]; }
    }
    assert SumProjects(projects) == 40 * 60 by {
      assert projects[1..] == [projects[1]] && projects[1..][1..] == [];
    }
  }

  /** `FirstDayLog` has the keys Foo and Bar, with one entry each. */
  lemma FirstDayGroups()
    ensures KeysOf(FirstDayLog()) == {"Foo", "Bar"}
    ensures WithKey(FirstDayLog(), "Foo") == [FirstDayLog()[0]]
    ensures WithKey(FirstDayLog(), "Bar") == [FirstDayLog()[1]]
  {
    var log := FirstDayLog();
    assert log[1..] == [log[1]] && log[1..][1..] == [];
    assert log[0] in log && log[1] in log;
  }

  /** The log of `test_report_days_number`: 30 minutes of Foo on 2000-01-01. */
  function OneDayLog(d: Date): seq<LogEntry> {
    if d == TestDay then [CreateLog(1, 30, "Foo")] else []
  }

  /** `test_report_days_number`: zero days give no day reports, one day with empty days gives one. */
  lemma TestReportDaysNumber(empty: DateRangeReport, single: DateRangeReport)
    requires IsRangeReportFor(OneDayLog, TestDay, 0, true, empty)
    requires IsRangeReportFor(OneDayLog, TestDay, 1, true, single)
    ensures |empty.days| == 0
    ensures |single.days| == 1
  {
    IncludedDaysCount(OneDayLog, TestDay + 1, TestDay);
    IncludedDaysCount(OneDayLog, TestDay, TestDay);
  }

  /** The log of `tl_multiple_days`: Foo and Bar on 2000-01-01, 10 minutes of Bar on 2000-01-02. */
  function TwoDayLog(d: Date): seq<LogEntry> {
    if d == TestDay then FirstDayLog()
    else if d == TestDay + 1 then [CreateLog(2, 10, "Bar")]
    else []
  }

  lemma TwoDayWindow()
    ensures IncludedDays(TwoDayLog, TestDay, TestDay + 1, true) == [TestDay, TestDay + 1]
  {
    assert IncludedDays(TwoDayLog, TestDay, TestDay - 1, true) == [];
  }

  /** `test_sum_over_multiple_logs_for_different_days`: two days, 50 minutes in all. */
  lemma TestDifferentDays(r: DateRangeReport)
    requires IsRangeReportFor(TwoDayLog, TestDay + 1, 2, true, r)
    ensures r.totalDuration == 50 * 60
    ensures |r.days| == 2
  {
    TwoDayWindow();
    var log := FirstDayLog();
    assert log[1..] == [log[1]] && log[1..][1..] == [];
    assert SumTime(TwoDayLog(TestDay)) == 40 * 60;
    assert SumTime(TwoDayLog(TestDay + 1)) == 10 * 60;
    assert [TestDay, TestDay + 1][1..] == [TestDay + 1];
    assert DayTotals(TwoDayLog, [TestDay + 1]) == 10 * 60 by {
      assert [TestDay + 1][1..] == [];
    }
  }

  /** The first day of the two-day window reports Bar for 10 minutes, then Foo for 30. */
  lemma TwoDayFirstReport(r: DateRangeReport)
    requires IsRangeReportFor(TwoDayLog, TestDay + 1, 2, true, r)
    ensures |r.days| == 2
    ensures r.days[0].projects == [ProjectReport("Bar", 10 * 60), ProjectReport("Foo", 30 * 60)]
  {
    TwoDayWindow();
    assert IsDayReportFor(TwoDayLog(TestDay), TestDay, r.days[0]);
    TestDifferentProjects(r.days[0]);
  }

  /** 30 minutes print as `[00h 30m]`. */
  lemma BracketHalfHour()
    ensures Bracketed(30 * 60) == "[00h 30m]"
  {
    PrettyExampleHalfHour();
    BracketedText(30 * 60, "00h 30m");
  }

  /** 10 minutes print as `[00h 10m]`. */
  lemma BracketTenMinutes()
    ensures Bracketed(10 * 60) == "[00h 10m]"
  {
    PrettyExampleTenMinutes();
    BracketedText(10 * 60, "00h 10m");
  }

  lemma BracketedText(d: Duration, text: string)
    requires ToPrettyString(d) == text
    ensures Bracketed(d) == "[" + text + "]"
  {
  }

  /** `test_display`: the text shows both projects and their durations `[00h 30m]` and `[00h 10m]`. */
  lemma TestDisplay(r: DateRangeReport)
    requires IsRangeReportFor(TwoDayLog, TestDay + 1, 2, true, r)
    ensures Occurs("Foo", DisplayRange(r)) && Occurs("Bar", DisplayRange(r))
    ensures Occurs("[00h 30m]", DisplayRange(r)) && Occurs("[00h 10m]", DisplayRange(r))
  {
    TwoDayFirstReport(r);
    DisplayShowsProjects(r, 0, 0);
    DisplayShowsProjects(r, 0, 1);
    BracketHalfHour();
    BracketTenMinutes();
  }
}
