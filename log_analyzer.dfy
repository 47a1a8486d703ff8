/**
 * The earlier report engine of `log_analyzer.rs`: reports form one tree
 * type whose nodes are tagged by a `Category` (a range of dates, a date or
 * a project), children are sorted by the `Category` order, and the text
 * form prints each node according to its depth.
 */
module LogAnalyzer {
  import opened Wrappers
  import opened Orders
  import opened Strings
  import opened Chrono
  import opened PrettyString
  import opened TimeLog
  import opened Grouping
  import opened Window

  /** `Category`; `Day` is `Category::Date`, and a range keeps its start and its end. */
  datatype Category = Project(name: string) | Day(date: Date) | DateRange(first: Date, last: Date)

  function CompareDates(a: Date, b: Date): Ordering {
    if a < b then Less else if a == b then Equal else Greater
  }

  /** `Ord for Category`: ranges before dates before projects; a range compares by its start only. */
  function Cmp(a: Category, b: Category): Ordering {
    match (a, b)
    case (Project(p1), Project(p2)) => Compare(p1, p2)
    case (Project(_), _) => Greater
    case (Day(_), DateRange(_, _)) => Greater
    case (Day(d1), Day(d2)) => CompareDates(d1, d2)
    case (Day(_), Project(_)) => Less
    case (DateRange(s1, _), DateRange(s2, _)) => CompareDates(s1, s2)
    case (DateRange(_, _), _) => Less
  }

  /** `PartialEq for Category`: equal when `cmp` says `Equal`. */
  predicate Eq(a: Category, b: Category) {
    Cmp(a, b) == Equal
  }

  /** Swapping the arguments reverses the result. */
  lemma CmpReverse(a: Category, b: Category)
    ensures Cmp(a, b) == Cmp(b, a).Reverse()
  {
    if a.Project? && b.Project? {
      CompareReverse(a.name, b.name);
    }
  }

  lemma CmpTransitive(a: Category, b: Category, c: Category)
    requires Cmp(a, b) == Less && Cmp(b, c) == Less
    ensures Cmp(a, c) == Less
  {
    if a.Project? && b.Project? && c.Project? {
      CompareTransitive(a.name, b.name, c.name);
    }
  }

  /** `Category::cmp` obeys the comparator laws: the order the sort relies on. */
  lemma CmpIsComparator()
    ensures Comparator(Cmp)
  {
    forall a, b ensures Cmp(a, b) == Cmp(b, a).Reverse() {
      CmpReverse(a, b);
    }
    forall a, b, c | Cmp(a, b) == Less && Cmp(b, c) == Less ensures Cmp(a, c) == Less {
      CmpTransitive(a, b, c);
    }
  }

  /**
   * Two categories are equal exactly when they are the same value or both
   * are ranges with the same start, whatever their ends.
   */
  lemma EqMeaning(a: Category, b: Category)
    ensures Eq(a, b) <==> a == b || (a.DateRange? && b.DateRange? && a.first == b.first)
  {
    if a.Project? && b.Project? {
      CompareEqual(a.name, b.name);
    }
  }

  /** A report: its category, its duration and the reports it is made of. */
  datatype Report = Report(category: Category, overallDuration: Duration, childReports: seq<Report>)

  /** `Report::create_duration_sum`. */
  function CreateDurationSum(reports: seq<Report>): Duration
    decreases |reports|
  {
    if reports == [] then 0 else reports[0].overallDuration + CreateDurationSum(reports[1..])
  }

  lemma {:induction false} DurationSumAppend(a: seq<Report>, b: seq<Report>)
    ensures CreateDurationSum(a + b) == CreateDurationSum(a) + CreateDurationSum(b)
    decreases |a|
  {
    if a == [] {
      assert a + b == b;
    } else {
      assert (a + b)[1..] == a[1..] + b;
      DurationSumAppend(a[1..], b);
    }
  }

  /** `report_ticket`: a leaf for one project. */
  function ReportTicket(key: string, entries: seq<LogEntry>): Report {
    Report(Project(key), SumTime(entries), [])
  }

  /** The sort key of `report_day`: `a.category.cmp(&b.category)`. */
  function ByCategory(a: Report, b: Report): Ordering {
    Cmp(a.category, b.category)
  }

  lemma ByCategoryIsComparator()
    ensures Comparator(ByCategory)
  {
    forall a, b ensures ByCategory(a, b) == ByCategory(b, a).Reverse() {
      CmpReverse(a.category, b.category);
    }
    forall a, b, c | ByCategory(a, b) == Less && ByCategory(b, c) == Less ensures ByCategory(a, c) == Less {
      CmpTransitive(a.category, b.category, c.category);
    }
  }

  /** A project leaf whose duration is the sum of its entries in `log`. */
  predicate IsTicketFor(log: seq<LogEntry>, t: Report) {
    && t.category.Project?
    && t.childReports == []
    && t.overallDuration == SumTime(WithKey(log, t.category.name))
  }

  /** The project name of a category; only project categories have one. */
  function NameOf(c: Category): string {
    if c.Project? then c.name else ""
  }

  /** The names of the project leaves among `ts`. */
  function TicketNames(ts: seq<Report>): set<string> {
    set t | t in ts && t.category.Project? :: t.category.name
  }

  lemma TicketNamesSnoc(ts: seq<Report>, t: Report)
    requires t.category.Project?
    ensures TicketNames(ts + [t]) == TicketNames(ts) + {t.category.name}
  {
    assert forall u :: u in ts + [t] <==> u in ts || u == t;
  }

  /**
   * What `report_day` promises about the report of `date` whose entries
   * are `log`: a `Date` node whose children are one project leaf per key
   * that occurs, each summing its entries, sorted by category, and whose
   * duration is the sum of the children's.
   */
  predicate IsDayReportFor(log: seq<LogEntry>, date: Date, r: Report) {
    && r.category == Day(date)
    && (forall t :: t in r.childReports ==> IsTicketFor(log, t))
    && StrictlySorted(ByCategory, r.childReports)
    && TicketNames(r.childReports) == KeysOf(log)
    && r.overallDuration == CreateDurationSum(r.childReports)
  }

  /** `groups.iter().map(report_ticket).collect()`, in the hash map's order. */
  method CollectTickets(log: seq<LogEntry>, groups: map<string, seq<LogEntry>>) returns (tickets: seq<Report>)
    requires forall k :: k in groups ==> groups[k] == WithKey(log, k)
    ensures forall t :: t in tickets ==> IsTicketFor(log, t)
    ensures TicketNames(tickets) == groups.Keys
    ensures forall i, j :: 0 <= i < j < |tickets| ==> tickets[i].category != tickets[j].category
  {
    tickets := [];
    var remaining := groups.Keys;
    while remaining != {}
      invariant remaining <= groups.Keys
      invariant forall t :: t in tickets ==> IsTicketFor(log, t)
      invariant TicketNames(tickets) == groups.Keys - remaining
      invariant forall i, j :: 0 <= i < j < |tickets| ==> tickets[i].category != tickets[j].category
      decreases remaining
    {
      var key :| key in remaining;
      assert forall i :: 0 <= i < |tickets| ==> tickets[i] in tickets;
      TicketNamesSnoc(tickets, ReportTicket(key, groups[key]));
      tickets := tickets + [ReportTicket(key, groups[key])];
      remaining := remaining - {key};
    }
  }

  lemma DistinctTickets(tickets: seq<Report>)
    requires forall i :: 0 <= i < |tickets| ==> tickets[i].category.Project?
    requires forall i, j :: 0 <= i < j < |tickets| ==> tickets[i].category != tickets[j].category
    ensures PairwiseDistinct(ByCategory, tickets)
  {
    forall i, j | 0 <= i < j < |tickets| ensures ByCategory(tickets[i], tickets[j]) != Equal {
      EqMeaning(tickets[i].category, tickets[j].category);
    }
  }

  /** Sorting the collected leaves by category gives the day report. */
  lemma SortedDayReport(log: seq<LogEntry>, date: Date, tickets: seq<Report>)
    requires forall t :: t in tickets ==> IsTicketFor(log, t)
    requires TicketNames(tickets) == KeysOf(log)
    requires forall i, j :: 0 <= i < j < |tickets| ==> tickets[i].category != tickets[j].category
    ensures var sorted := SortBy(ByCategory, tickets);
      IsDayReportFor(log, date, Report(Day(date), CreateDurationSum(sorted), sorted))
  {
    ByCategoryIsComparator();
    assert forall i :: 0 <= i < |tickets| ==> tickets[i] in tickets;
    DistinctTickets(tickets);
    SortBySpec(ByCategory, tickets);
    PermutedTickets(log, tickets, SortBy(ByCategory, tickets));
  }

  /** A rearrangement of the leaves has the same leaves. */
  lemma PermutedTickets(log: seq<LogEntry>, tickets: seq<Report>, sorted: seq<Report>)
    requires multiset(sorted) == multiset(tickets)
    requires forall t :: t in tickets ==> IsTicketFor(log, t)
    ensures forall t :: t in sorted ==> IsTicketFor(log, t)
    ensures TicketNames(sorted) == TicketNames(tickets)
  {
    forall t ensures t in sorted <==> t in tickets {
      assert t in sorted <==> t in multiset(sorted);
      assert t in tickets <==> t in multiset(tickets);
    }
  }

  /** `report_day`: group the day's entries, one leaf per group, sorted by category. */
  method ReportDay(forDay: Date -> seq<LogEntry>, date: Date) returns (r: Report)
    ensures IsDayReportFor(forDay(date), date, r)
  {
    var log := forDay(date);
    var groups := GroupByKey(log);
    var tickets := CollectTickets(log, groups);
    SortedDayReport(log, date, tickets);
    var sorted := SortBy(ByCategory, tickets);
    r := Report(Day(date), CreateDurationSum(sorted), sorted);
  }

  /** The names of the leaves, in order. */
  function TicketKeys(ts: seq<Report>): (keys: seq<string>)
    ensures |keys| == |ts| && forall i :: 0 <= i < |ts| ==> keys[i] == NameOf(ts[i].category)
    decreases |ts|
  {
    if ts == [] then [] else [NameOf(ts[0].category)] + TicketKeys(ts[1..])
  }

  lemma {:induction false} TicketsAsGroups(log: seq<LogEntry>, ts: seq<Report>)
    requires forall t :: t in ts ==> IsTicketFor(log, t)
    ensures CreateDurationSum(ts) == SumGroups(log, TicketKeys(ts))
    decreases |ts|
  {
    if ts != [] {
      assert ts[0] in ts;
      assert forall t :: t in ts[1..] ==> t in ts;
      TicketsAsGroups(log, ts[1..]);
      assert TicketKeys(ts)[1..] == TicketKeys(ts[1..]);
    }
  }

  /** A day's duration is the sum of the durations of all the day's entries. */
  lemma DayReportTotal(log: seq<LogEntry>, date: Date, r: Report)
    requires IsDayReportFor(log, date, r)
    ensures r.overallDuration == SumTime(log)
  {
    var ts := r.childReports;
    var keys := TicketKeys(ts);
    TicketsAsGroups(log, ts);
    forall i, j | 0 <= i < j < |keys| ensures keys[i] != keys[j] {
      assert ts[i] in ts && ts[j] in ts;
      CompareEqual(keys[i], keys[j]);
      assert ByCategory(ts[i], ts[j]) == Less;
    }
    forall k | k in KeysOf(log) ensures k in keys {
      assert k in TicketNames(ts);
      var t :| t in ts && t.category.name == k;
      var i :| 0 <= i < |ts| && ts[i] == t;
      assert keys[i] == k;
    }
    SumOverKeys(log, keys);
  }

  lemma SameTickets(log: seq<LogEntry>, date: Date, a: Report, b: Report, t: Report)
    requires IsDayReportFor(log, date, a) && IsDayReportFor(log, date, b)
    requires t in a.childReports
    ensures t in b.childReports
  {
    assert IsTicketFor(log, t);
    assert t.category.name in TicketNames(a.childReports);
    var u :| u in b.childReports && u.category.name == t.category.name;
    assert IsTicketFor(log, u);
  }

  /** The day report is determined by the day's entries, whatever the hash map's order. */
  lemma DayReportUnique(log: seq<LogEntry>, date: Date, a: Report, b: Report)
    requires IsDayReportFor(log, date, a) && IsDayReportFor(log, date, b)
    ensures a == b
  {
    forall t ensures t in a.childReports <==> t in b.childReports {
      if t in a.childReports {
        SameTickets(log, date, a, b, t);
      }
      if t in b.childReports {
        SameTickets(log, date, b, a, t);
      }
    }
    ByCategoryIsComparator();
    StrictlySortedUnique(ByCategory, a.childReports, b.childReports);
  }

  /** `reports` holds, one for one, the day reports of `dates`. */
  predicate ReportsDays(forDay: Date -> seq<LogEntry>, reports: seq<Report>, dates: seq<Date>) {
    && |reports| == |dates|
    && forall i :: 0 <= i < |dates| ==> IsDayReportFor(forDay(dates[i]), dates[i], reports[i])
  }

  lemma {:induction false} ReportsDaysTotal(forDay: Date -> seq<LogEntry>, reports: seq<Report>, dates: seq<Date>)
    requires ReportsDays(forDay, reports, dates)
    ensures CreateDurationSum(reports) == DayTotals(forDay, dates)
    decreases |dates|
  {
    if dates != [] {
      DayReportTotal(forDay(dates[0]), dates[0], reports[0]);
      ReportsDaysTotal(forDay, reports[1..], dates[1..]);
    }
  }

  /**
   * What `report_days(date, days, inc)` promises for `days >= 1`: a
   * `DateRange` node from `days - 1` days before `date` to `date`, whose
   * children are the reports of the window's days with entries (or of all
   * of them when `inc`), ascending, and whose duration sums their entries.
   */
  predicate IsRangeReportFor(forDay: Date -> seq<LogEntry>, date: Date, days: nat, inc: bool, r: Report) {
    && r.category == DateRange(date - (days - 1), date)
    && ReportsDays(forDay, r.childReports, IncludedDays(forDay, date - (days - 1), date, inc))
    && r.overallDuration == DayTotals(forDay, IncludedDays(forDay, date - (days - 1), date, inc))
  }

  /**
   * The exit test of the `loop` in `report_days` as written: starting from
   * `curr`, the number of tests made up to and including the one that finds
   * `date`, or `None` when `fuel` tests do not reach it.
   */
  function TestsUntilExit(curr: Date, date: Date, fuel: nat): Option<nat>
    decreases fuel
  {
    if fuel == 0 then None
    else if curr == date then Some(1)
    else
      match TestsUntilExit(Succ(curr), date, fuel - 1)
      case None => None
      case Some(n) => Some(n + 1)
  }

  /** With `days >= 1` the loop stops after exactly `days` rounds, given the fuel for them. */
  lemma {:induction false} ExitAfterDays(date: Date, days: nat, fuel: nat)
    requires days >= 1 && fuel >= days
    ensures TestsUntilExit(date - (days - 1), date, fuel) == Some(days)
    decreases days
  {
    if days > 1 {
      ExitAfterDays(date, days - 1, fuel - 1);
      assert Succ(date - (days - 1)) == date - (days - 2);
    }
  }

  /** Once `curr_date` is past `date` no number of rounds reaches the exit. */
  lemma {:induction false} PastDateNeverExits(curr: Date, date: Date, fuel: nat)
    requires curr > date
    ensures TestsUntilExit(curr, date, fuel) == None
    decreases fuel
  {
    if fuel > 0 {
      PastDateNeverExits(Succ(curr), date, fuel - 1);
    }
  }

  /** With `days == 0` the loop starts the day after `date` and never stops. */
  lemma ZeroDaysNeverExits(date: Date, fuel: nat)
    ensures TestsUntilExit(date - (0 - 1), date, fuel) == None
  {
    PastDateNeverExits(date + 1, date, fuel);
  }

  /** `report_days`, whose `loop` ends only when `curr_date` equals `date`. */
  method ReportDays(forDay: Date -> seq<LogEntry>, date: Date, days: nat, includeEmptyDays: bool)
    returns (r: Report)
    requires days >= 1
    ensures IsRangeReportFor(forDay, date, days, includeEmptyDays, r)
  {
    var startDate := date - (days - 1);
    var reports: seq<Report> := [];
    var currDate := startDate;
    while true
      invariant startDate <= currDate <= date
      invariant ReportsDays(forDay, reports, IncludedDays(forDay, startDate, currDate - 1, includeEmptyDays))
      decreases date - currDate
    {
      if forDay(currDate) != [] || includeEmptyDays {
        var day := ReportDay(forDay, currDate);
        reports := reports + [day];
      }
      if currDate == date {
        break;
      }
      currDate := Succ(currDate);
    }
    ReportsDaysTotal(forDay, reports, IncludedDays(forDay, startDate, date, includeEmptyDays));
    r := Report(DateRange(startDate, date), CreateDurationSum(reports), reports);
  }

  /** The arrow literal of this file, as its bytes C3 A2 C2 AF decode: `â` then `¯`. */
  const Arrow: string := "\U{E2}\U{AF}"

  /** `Display for Category`. */
  function CategoryText(c: Category): string {
    match c
    case Project(t) => t
    case Day(d) => WeekdayAbbrev(d) + ". " + IsoDate(d)
    case DateRange(s, e) => IsoDate(s) + " to " + IsoDate(e)
  }

  /** 2000-01-01 is printed `Sat. 2000-01-01`, and the range from it to 2000-02-29 with both ends in `%F`. */
  lemma CategoryTextExample()
    ensures CategoryText(Day(10957)) == "Sat. 2000-01-01"
    ensures CategoryText(DateRange(10957, 11016)) == "2000-01-01 to 2000-02-29"
  {
    IsoDateExamples();
    WeekdayExamples();
    ExampleTextsJoin();
  }

  lemma ExampleTextsJoin()
    ensures "Sat" + ". " + "2000-01-01" == "Sat. 2000-01-01"
    ensures "2000-01-01" + " to " + "2000-02-29" == "2000-01-01 to 2000-02-29"
  {
  }

  /** What `format` writes for one node at depth `level`, without colour or bold styling. */
  function Line(t: Report, level: nat): string {
    if level == 1 then
      Arrow + " " + CategoryText(t.category) + PadRight(" ", 25) + "[" + ToPrettyString(t.overallDuration) + "]\n"
    else if level == 2 then
      "    " + Arrow + " " + PadRight(CategoryText(t.category), 35) + " [" + ToPrettyString(t.overallDuration) + "]\n"
    else ""
  }

  /** `format(f, target, level)`: the node's line, then its children one level deeper. */
  function Format(t: Report, level: nat): string
    decreases t, 1
  {
    Line(t, level) + FormatAll(t.childReports, level + 1)
  }

  function FormatAll(ts: seq<Report>, level: nat): string
    decreases ts, 0
  {
    if ts == [] then "" else Format(ts[0], level) + FormatAll(ts[1..], level)
  }

  /** `Display for Report`: formatting starts at depth zero. */
  function Display(r: Report): string {
    Format(r, 0)
  }

  /** Nodes deeper than projects print nothing, however many descendants they have. */
  lemma {:induction false} FormatBeyondProjects(t: Report, level: nat)
    requires level >= 3
    ensures Format(t, level) == ""
    decreases t, 1
  {
    FormatAllBeyondProjects(t.childReports, level + 1);
  }

  lemma {:induction false} FormatAllBeyondProjects(ts: seq<Report>, level: nat)
    requires level >= 3
    ensures FormatAll(ts, level) == ""
    decreases ts, 0
  {
    if ts != [] {
      FormatBeyondProjects(ts[0], level);
      FormatAllBeyondProjects(ts[1..], level);
    }
  }

  /** The text of a day and its projects: the day's line, then one project line per child. */
  function DayBlock(day: Report): string {
    Line(day, 1) + Concat(ProjectLinesOf(day.childReports))
  }

  function ProjectLinesOf(ts: seq<Report>): (lines: seq<string>)
    ensures |lines| == |ts| && forall i :: 0 <= i < |ts| ==> lines[i] == Line(ts[i], 2)
    decreases |ts|
  {
    if ts == [] then [] else
      var others := ProjectLinesOf(ts[1..]);
      ShiftedIndex(ts);
      [Line(ts[0], 2)] + others
  }

  function DayBlocks(days: seq<Report>): (blocks: seq<string>)
    ensures |blocks| == |days| && forall i :: 0 <= i < |days| ==> blocks[i] == DayBlock(days[i])
    decreases |days|
  {
    if days == [] then [] else
      var others := DayBlocks(days[1..]);
      ShiftedIndex(days);
      [DayBlock(days[0])] + others
  }

  /** Index `i - 1` of the tail is index `i` of the whole. */
  lemma ShiftedIndex(ts: seq<Report>)
    requires ts != []
    ensures forall i :: 1 <= i < |ts| ==> ts[1..][i - 1] == ts[i]
  {
  }

  lemma {:induction false} ProjectLevel(ts: seq<Report>)
    ensures FormatAll(ts, 2) == Concat(ProjectLinesOf(ts))
    decreases |ts|
  {
    if ts != [] {
      FormatAllBeyondProjects(ts[0].childReports, 3);
      ProjectLevel(ts[1..]);
    }
  }

  lemma {:induction false} DayLevel(days: seq<Report>)
    ensures FormatAll(days, 1) == Concat(DayBlocks(days))
    decreases |days|
  {
    if days != [] {
      ProjectLevel(days[0].childReports);
      DayLevel(days[1..]);
    }
  }

  /**
   * The text of a report prints nothing for the root, then for each child
   * in order its line followed by the lines of its own children, and
   * nothing below that.
   */
  lemma DisplayLevels(r: Report)
    ensures Display(r) == Concat(DayBlocks(r.childReports))
  {
    DayLevel(r.childReports);
  }
}
