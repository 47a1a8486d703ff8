/**
 * The report engine of `report_creator.rs`: a day report groups the day's
 * entries by project, sums each group and sorts the projects by name; a
 * range report walks the days of a window and keeps the days with entries,
 * or all of them when empty days are wanted.
 *
 * The time log is seen through `forDay`, the function that gives the
 * entries filed under a date.
 */
module ReportCreator {
  import opened Orders
  import opened Strings
  import opened Chrono
  import opened PrettyString
  import opened TimeLog
  import opened Grouping
  import opened Window

  const Arrow: string := "\U{276F}"

  datatype ProjectReport = ProjectReport(project: string, duration: Duration)

  datatype DayReport = DayReport(date: Date, totalDuration: Duration, projects: seq<ProjectReport>)

  /** `range` is the half-open `start..date`; both ends are kept. */
  datatype DateRangeReport = DateRangeReport(rangeStart: Date, rangeEnd: Date, totalDuration: Duration, days: seq<DayReport>)

  function SumProjects(ps: seq<ProjectReport>): Duration
    decreases |ps|
  {
    if ps == [] then 0 else ps[0].duration + SumProjects(ps[1..])
  }

  function SumDays(ds: seq<DayReport>): Duration
    decreases |ds|
  {
    if ds == [] then 0 else ds[0].totalDuration + SumDays(ds[1..])
  }

  lemma {:induction false} SumDaysAppend(a: seq<DayReport>, b: seq<DayReport>)
    ensures SumDays(a + b) == SumDays(a) + SumDays(b)
    decreases |a|
  {
    if a == [] {
      assert a + b == b;
    } else {
      assert (a + b)[1..] == a[1..] + b;
      SumDaysAppend(a[1..], b);
    }
  }

  /** `DayReport::new`: the total is folded from the projects. */
  function NewDayReport(date: Date, projects: seq<ProjectReport>): DayReport {
    DayReport(date, SumProjects(projects), projects)
  }

  /** `DateRangeReport::new`: the total is folded from the days. */
  function NewDateRangeReport(start: Date, end: Date, days: seq<DayReport>): DateRangeReport {
    DateRangeReport(start, end, SumDays(days), days)
  }

  /** `report_project`. */
  function ReportProject(name: string, entries: seq<LogEntry>): ProjectReport {
    ProjectReport(name, SumTime(entries))
  }

  /** The sort key of `report_day`: `a.project.cmp(&b.project)`. */
  function ByProject(a: ProjectReport, b: ProjectReport): Ordering {
    Compare(a.project, b.project)
  }

  lemma ByProjectIsComparator()
    ensures Comparator(ByProject)
  {
    forall a, b ensures ByProject(a, b) == ByProject(b, a).Reverse() {
      CompareReverse(a.project, b.project);
    }
    forall a, b, c | ByProject(a, b) == Less && ByProject(b, c) == Less ensures ByProject(a, c) == Less {
      CompareTransitive(a.project, b.project, c.project);
    }
  }

  /** `serialize_duration`: a duration is written as its whole number of minutes. */
  function SerializeDuration(d: Duration): (m: int)
    ensures d >= 0 ==> m >= 0 && m * 60 <= d < (m + 1) * 60
    ensures d < 0 ==> m <= 0 && (m - 1) * 60 < d <= m * 60
  {
    NumMinutes(d)
  }

  function ProjectNames(ps: seq<ProjectReport>): set<string> {
    set p | p in ps :: p.project
  }

  lemma ProjectNamesSnoc(ps: seq<ProjectReport>, p: ProjectReport)
    ensures ProjectNames(ps + [p]) == ProjectNames(ps) + {p.project}
  {
    assert forall q :: q in ps + [p] <==> q in ps || q == p;
  }

  /** A project's duration is the sum of the durations of its entries in `log`. */
  predicate Summarizes(log: seq<LogEntry>, p: ProjectReport) {
    p.duration == SumTime(WithKey(log, p.project))
  }

  /**
   * What `report_day` promises about the report of `date` whose entries
   * are `log`: one project per project name that occurs, each with the sum
   * of its entries, strictly ascending by name, and the day total folded
   * from the projects.
   */
  predicate IsDayReportFor(log: seq<LogEntry>, date: Date, r: DayReport) {
    && r.date == date
    && StrictlySorted(ByProject, r.projects)
    && ProjectNames(r.projects) == KeysOf(log)
    && (forall p :: p in r.projects ==> Summarizes(log, p))
    && r.totalDuration == SumProjects(r.projects)
  }

  /**
   * `groups.iter().map(report_project).collect()`: one report per group, in
   * whatever order the hash map hands them out.
   */
  method CollectProjects(log: seq<LogEntry>, groups: map<string, seq<LogEntry>>) returns (projects: seq<ProjectReport>)
    requires forall k :: k in groups ==> groups[k] == WithKey(log, k)
    ensures ProjectNames(projects) == groups.Keys
    ensures forall p :: p in projects ==> Summarizes(log, p)
    ensures forall i, j :: 0 <= i < j < |projects| ==> projects[i].project != projects[j].project
  {
    projects := [];
    var remaining := groups.Keys;
    while remaining != {}
      invariant remaining <= groups.Keys
      invariant ProjectNames(projects) == groups.Keys - remaining
      invariant forall p :: p in projects ==> Summarizes(log, p)
      invariant forall i, j :: 0 <= i < j < |projects| ==> projects[i].project != projects[j].project
      decreases remaining
    {
      var name :| name in remaining;
      assert forall i :: 0 <= i < |projects| ==> projects[i].project in ProjectNames(projects);
      ProjectNamesSnoc(projects, ReportProject(name, groups[name]));
      projects := projects + [ReportProject(name, groups[name])];
      remaining := remaining - {name};
    }
  }

  /** Sorting the collected project reports by name gives the day report. */
  lemma SortedDayReport(log: seq<LogEntry>, date: Date, projects: seq<ProjectReport>)
    requires ProjectNames(projects) == KeysOf(log)
    requires forall p :: p in projects ==> Summarizes(log, p)
    requires forall i, j :: 0 <= i < j < |projects| ==> projects[i].project != projects[j].project
    ensures IsDayReportFor(log, date, NewDayReport(date, SortBy(ByProject, projects)))
  {
    ByProjectIsComparator();
    forall i, j | 0 <= i < j < |projects| ensures ByProject(projects[i], projects[j]) != Equal {
      CompareEqual(projects[i].project, projects[j].project);
    }
    SortBySpec(ByProject, projects);
    PermutedProjects(log, projects, SortBy(ByProject, projects));
  }

  /** A rearrangement of the project reports has the same projects. */
  lemma PermutedProjects(log: seq<LogEntry>, projects: seq<ProjectReport>, sorted: seq<ProjectReport>)
    requires multiset(sorted) == multiset(projects)
    requires forall p :: p in projects ==> Summarizes(log, p)
    ensures forall p :: p in sorted ==> Summarizes(log, p)
    ensures ProjectNames(sorted) == ProjectNames(projects)
  {
    forall p ensures p in sorted <==> p in projects {
      assert p in sorted <==> p in multiset(sorted);
      assert p in projects <==> p in multiset(projects);
    }
  }

  /** `report_day`: group the day's entries, report each group, sort by name. */
  method ReportDay(forDay: Date -> seq<LogEntry>, date: Date) returns (r: DayReport)
    ensures IsDayReportFor(forDay(date), date, r)
  {
    var log := forDay(date);
    var groups := GroupByKey(log);
    var projects := CollectProjects(log, groups);
    SortedDayReport(log, date, projects);
    r := NewDayReport(date, SortBy(ByProject, projects));
  }

  /** The project names of `ps`, in order. */
  function ProjectKeys(ps: seq<ProjectReport>): (keys: seq<string>)
    ensures |keys| == |ps| && forall i :: 0 <= i < |ps| ==> keys[i] == ps[i].project
    decreases |ps|
  {
    if ps == [] then [] else [ps[0].project] + ProjectKeys(ps[1..])
  }

  lemma {:induction false} SumProjectsAsGroups(log: seq<LogEntry>, ps: seq<ProjectReport>)
    requires forall p :: p in ps ==> Summarizes(log, p)
    ensures SumProjects(ps) == SumGroups(log, ProjectKeys(ps))
    decreases |ps|
  {
    if ps != [] {
      assert ps[0] in ps;
      assert forall p :: p in ps[1..] ==> p in ps;
      SumProjectsAsGroups(log, ps[1..]);
      assert ProjectKeys(ps)[1..] == ProjectKeys(ps[1..]);
    }
  }

  /** A day total is the sum of the durations of all the day's entries. */
  lemma DayReportTotal(log: seq<LogEntry>, date: Date, r: DayReport)
    requires IsDayReportFor(log, date, r)
    ensures r.totalDuration == SumTime(log)
  {
    var keys := ProjectKeys(r.projects);
    SumProjectsAsGroups(log, r.projects);
    forall i, j | 0 <= i < j < |keys| ensures keys[i] != keys[j] {
      CompareEqual(keys[i], keys[j]);
    }
    forall k | k in KeysOf(log) ensures k in keys {
      assert k in ProjectNames(r.projects);
      var p :| p in r.projects && p.project == k;
      var i :| 0 <= i < |r.projects| && r.projects[i] == p;
      assert keys[i] == k;
    }
    SumOverKeys(log, keys);
  }

  lemma SameProjects(log: seq<LogEntry>, date: Date, a: DayReport, b: DayReport, p: ProjectReport)
    requires IsDayReportFor(log, date, a) && IsDayReportFor(log, date, b)
    requires p in a.projects
    ensures p in b.projects
  {
    assert p.project in ProjectNames(a.projects);
    var q :| q in b.projects && q.project == p.project;
    assert Summarizes(log, p) && Summarizes(log, q);
  }

  /**
   * The day report is determined by the day's entries: it does not depend
   * on the order in which the hash map hands out its groups.
   */
  lemma DayReportUnique(log: seq<LogEntry>, date: Date, a: DayReport, b: DayReport)
    requires IsDayReportFor(log, date, a) && IsDayReportFor(log, date, b)
    ensures a == b
  {
    forall p ensures p in a.projects <==> p in b.projects {
      if p in a.projects {
        SameProjects(log, date, a, b, p);
      }
      if p in b.projects {
        SameProjects(log, date, b, a, p);
      }
    }
    CompareIsComparator();
    ByProjectIsComparator();
    StrictlySortedUnique(ByProject, a.projects, b.projects);
  }

  /** A day without entries has no projects and a zero total. */
  lemma EmptyDayReport(date: Date, r: DayReport)
    requires IsDayReportFor([], date, r)
    ensures r.projects == [] && r.totalDuration == 0
  {
    assert forall p :: p in r.projects ==> p.project in ProjectNames(r.projects);
  }

  /** `reports` holds, one for one, the day reports of `dates`. */
  predicate ReportsDays(forDay: Date -> seq<LogEntry>, reports: seq<DayReport>, dates: seq<Date>) {
    && |reports| == |dates|
    && forall i :: 0 <= i < |dates| ==> IsDayReportFor(forDay(dates[i]), dates[i], reports[i])
  }

  lemma {:induction false} ReportsDaysTotal(forDay: Date -> seq<LogEntry>, reports: seq<DayReport>, dates: seq<Date>)
    requires ReportsDays(forDay, reports, dates)
    ensures SumDays(reports) == DayTotals(forDay, dates)
    decreases |dates|
  {
    if dates != [] {
      DayReportTotal(forDay(dates[0]), dates[0], reports[0]);
      ReportsDaysTotal(forDay, reports[1..], dates[1..]);
    }
  }

  /**
   * What `report_days(date, days, inc)` promises: the window starts
   * `days - 1` days before `date`, the reports are those of the window's
   * days with entries (or of all of them when `inc`), in ascending order,
   * and the total is the sum over all the entries of those days.
   */
  predicate IsRangeReportFor(forDay: Date -> seq<LogEntry>, date: Date, days: nat, inc: bool, r: DateRangeReport) {
    && r.rangeStart == date - (days - 1)
    && r.rangeEnd == date
    && ReportsDays(forDay, r.days, IncludedDays(forDay, r.rangeStart, date, inc))
    && r.totalDuration == DayTotals(forDay, IncludedDays(forDay, r.rangeStart, date, inc))
  }

  /** `report_days`. */
  method ReportDays(forDay: Date -> seq<LogEntry>, date: Date, days: nat, includeEmptyDays: bool)
    returns (r: DateRangeReport)
    ensures IsRangeReportFor(forDay, date, days, includeEmptyDays, r)
  {
    var startDate := date - (days - 1);
    var childReports: seq<DayReport> := [];
    var currDate := startDate;
    while currDate <= date
      invariant startDate <= currDate <= date + 1
      invariant ReportsDays(forDay, childReports, IncludedDays(forDay, startDate, currDate - 1, includeEmptyDays))
      decreases date - currDate
    {
      if forDay(currDate) != [] || includeEmptyDays {
        var day := ReportDay(forDay, currDate);
        childReports := childReports + [day];
      }
      currDate := Succ(currDate);
    }
    ReportsDaysTotal(forDay, childReports, IncludedDays(forDay, startDate, date, includeEmptyDays));
    r := NewDateRangeReport(startDate, date, childReports);
  }

  /** The indentation and arrow in front of a project line. */
  const ProjectIndent: string := "    " + Arrow + " "

  /** A duration in pretty form between square brackets. */
  function Bracketed(d: Duration): string {
    "[" + ToPrettyString(d) + "]"
  }

  /** `Display for ProjectReport`, without the bold styling. */
  function DisplayProject(p: ProjectReport): string {
    ProjectIndent + PadRight(p.project, 35) + " " + Bracketed(p.duration) + "\n"
  }

  function ProjectLines(ps: seq<ProjectReport>): (lines: seq<string>)
    ensures |lines| == |ps| && forall i :: 0 <= i < |ps| ==> lines[i] == DisplayProject(ps[i])
    decreases |ps|
  {
    if ps == [] then [] else [DisplayProject(ps[0])] + ProjectLines(ps[1..])
  }

  /** The heading of `Display for DayReport`, without the green arrow. */
  function DayHeading(d: DayReport): string {
    Arrow + " " + WeekdayAbbrev(d.date) + ". " + IsoDate(d.date) + PadRight(" ", 25)
      + Bracketed(d.totalDuration) + "\n"
  }

  /** `Display for DayReport`: the heading, then one line per project. */
  function DisplayDay(d: DayReport): string {
    DayHeading(d) + Concat(ProjectLines(d.projects))
  }

  function DayTexts(ds: seq<DayReport>): (texts: seq<string>)
    ensures |texts| == |ds| && forall i :: 0 <= i < |ds| ==> texts[i] == DisplayDay(ds[i])
    decreases |ds|
  {
    if ds == [] then [] else [DisplayDay(ds[0])] + DayTexts(ds[1..])
  }

  /** `Display for DateRangeReport`: the days one after the other. */
  function DisplayRange(r: DateRangeReport): string {
    Concat(DayTexts(r.days))
  }

  /** A project line shows the project's name and its bracketed pretty duration. */
  lemma ProjectLineShows(p: ProjectReport)
    ensures OccursAt(p.project, DisplayProject(p), |ProjectIndent|)
    ensures OccursAt(Bracketed(p.duration), DisplayProject(p), |ProjectIndent| + |PadRight(p.project, 35)| + 1)
  {
    var padded := PadRight(p.project, 35);
    var b := Bracketed(p.duration);
    assert OccursAt(p.project, padded, 0);
    OccursPrepend(p.project, padded, 0, ProjectIndent);
    OccursAppend(p.project, ProjectIndent + padded, |ProjectIndent|, " ");
    OccursAppend(p.project, ProjectIndent + padded + " ", |ProjectIndent|, b);
    OccursAppend(p.project, ProjectIndent + padded + " " + b, |ProjectIndent|, "\n");
    assert OccursAt(b, b, 0);
    OccursPrepend(b, b, 0, ProjectIndent + padded + " ");
    OccursAppend(b, ProjectIndent + padded + " " + b, |ProjectIndent + padded + " "|, "\n");
  }

  /** Whatever a day's project lines show, the day's text shows. */
  lemma DayShows(day: DayReport, j: int, pat: string, i: int)
    requires 0 <= j < |day.projects| && OccursAt(pat, DisplayProject(day.projects[j]), i)
    ensures Occurs(pat, DisplayDay(day))
  {
    OccursInConcat(pat, ProjectLines(day.projects), j, i);
    var i1 :| OccursAt(pat, Concat(ProjectLines(day.projects)), i1);
    OccursPrepend(pat, Concat(ProjectLines(day.projects)), i1, DayHeading(day));
  }

  /**
   * The text of a range report shows every project of every day with its
   * bracketed pretty duration.
   */
  lemma DisplayShowsProjects(r: DateRangeReport, k: int, j: int)
    requires 0 <= k < |r.days| && 0 <= j < |r.days[k].projects|
    ensures Occurs(r.days[k].projects[j].project, DisplayRange(r))
    ensures Occurs(Bracketed(r.days[k].projects[j].duration), DisplayRange(r))
  {
    var day := r.days[k];
    var p := day.projects[j];
    ProjectLineShows(p);
    DayShows(day, j, p.project, |ProjectIndent|);
    DayShows(day, j, Bracketed(p.duration), |ProjectIndent| + |PadRight(p.project, 35)| + 1);
    var i1 :| OccursAt(p.project, DisplayDay(day), i1);
    var i2 :| OccursAt(Bracketed(p.duration), DisplayDay(day), i2);
    OccursInConcat(p.project, DayTexts(r.days), k, i1);
    OccursInConcat(Bracketed(p.duration), DayTexts(r.days), k, i2);
  }
}
