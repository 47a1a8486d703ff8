# trackie, modelled in Dafny

trackie is a command-line time tracker. It keeps one JSON time log with at most
one pending session (a project key and its start time) and an append-only list
of closed entries. `start` auto-closes a pending session. `stop` closes the
pending session or fails when there is none. `resume` restarts the project of
the latest entry. `status` prints the pending session through a format string.
`report` aggregates the entries per day and per project over a window of days.

This project models the core of that program and proves its properties:
- the time-log state machine (`time_log.rs`);
- the report engine of `report_creator.rs` and its earlier revision `log_analyzer.rs`;
- the `HHh MMm` duration formatter (`pretty_string.rs`);
- the `run_app` dispatcher of `lib.rs`, with the file handler as an
  `Option<string>` cell.

Representation:
- Time is reduced to integers, with a truncating `TruncDiv` where Rust
  divides `i64`s:
  - a timestamp is seconds of local time since 1970-01-01T00:00;
  - a date is a day number, with `succ` = +1;
  - a `Duration` is seconds.
- `Local::now()` is an explicit `now` parameter, and `Local::today()` is
  `DateOf(now)`.
- The report engines see the time log through `forDay: Date -> seq<LogEntry>`.
  `lib.rs` instantiates it with `time_log.rs`'s `for_day` (`App.ForDayOf`).

Modules, one or two per source file plus shared building blocks:
- `TimeLog` (a `class` whose `StartLog`/`StopPending` methods update `pending`
  and `entries`, next to their pure transition functions).
- `Grouping` (`sum_time`, and `group_by_key` as a method filling a map in a
  `for` loop).
- `Window` (the days a range report visits).
- `ReportCreator` and `LogAnalyzer` (the two engines, each with its loop as a
  method proved against a specification predicate).
- `PrettyString`, `Errors` (`TrackieError`).
- `Persistence` (load and save through a text encoding with a proved round trip).
- `StatusLine` (the line `status` prints: the format's placeholders filled in).
- `App` (`run_app` with one method per subcommand, `start_tracking`,
  `TestFileHandler`).
- `Chrono`, `Strings`, `Seqs`, `Orders` (building blocks):
  - `Orders.SortBy` is the sort that `sort_unstable_by` performs, an
    insertion sort whose properties `Orders.SortBySpec` proves;
  - `Strings.Replace` is `str::replace`.
- `ReportCreatorTests`, `TimeLogTests`, `AppTests` restate the source's unit
  tests:
  - `TimeLogTests` runs them as methods on a `new TimeLog()`;
  - `AppTests` are lemmas over every clock reading the lib.rs tests take
    from `Local::now()`;
  - `ReportCreatorTests` fix the test logs on `test_date()`, 2000-01-01,
    and state their facts of every report that meets the engine's
    specification (`IsDayReportFor`, `IsRangeReportFor`);
  - `ReportCreatorTests.TestEmptyLog` fixes one day where the test uses
    `Local::today()`; `ReportCreator.EmptyDayReport` is the same fact for
    every date.

Decisions the code fixes:
- Entries are filed under their start date (src/time_log.rs:84), so a
  session that crosses midnight counts on the day it began.
- `log_analyzer.rs` never leaves its loop for 0 days (see Findings), while
  `report_creator.rs` gives an empty window.
- The arrow literal of `log_analyzer.rs` is the two characters `â¯`
  (U+00E2 U+00AF), not `❯`. These are the UTF-8 bytes E2 9D AF of `❯` read
  as Windows-1252, with the byte 9D, which Windows-1252 leaves undefined,
  dropped. The model keeps the literal as written.

## Model

| member | source | states |
|---|---|---|
| TimeLog.FromTimeLog | src/time_log.rs:22-28 | the closed entry keeps the session's key and start, and its duration is the time from the start to `end` |
| TimeLog.ToDuration | src/time_log.rs:30-32 | start + duration = end, and the duration is non-negative exactly when start <= end |
| TimeLog.TimeLog.constructor | src/time_log.rs:42-47 | a new log has no pending session and no entries |
| TimeLog.TimeLog.FromState | src/time_log.rs:49-51 | the log holds exactly the parsed value |
| TimeLog.StartLogStep | src/time_log.rs:53-65 | no contract of its own: `start_log` on values (a pending session is closed at now into one appended entry with the stop warning, then key and now become the pending session); `TimeLog.StartLog` is proved to make exactly this change |
| TimeLog.StopPendingStep | src/time_log.rs:67-79 | no contract of its own: `stop_pending` on values (the error "No time is currently tracked." when idle, otherwise the session closed at now, appended, and the log idle); `TimeLog.StopPending` is proved to make exactly this change |
| TimeLog.TimeLog.StartLog | src/time_log.rs:53-65 | pending becomes (key, now); on an idle log the result is Ok(None) and entries are unchanged; while pending the result is Ok(Some("Stopping time-tracking for " + old key)) and exactly one entry (old key, old start, now) is appended |
| TimeLog.TimeLog.StopPending | src/time_log.rs:67-79 | on an idle log the result is the error "No time is currently tracked." and nothing changes; otherwise exactly one entry with key and start copied and end = now is appended after the unchanged earlier entries, and pending becomes None |
| TimeLog.EntriesOn | src/time_log.rs:81-86 | no contract of its own: `for_day` as the filter on the start date; `EntriesOnSpec` states what it keeps |
| TimeLog.TimeLog.ForDay | src/time_log.rs:81-86 | no contract of its own: `for_day` on the object's entries, which is `EntriesOn` |
| TimeLog.EntriesOnSpec | src/time_log.rs:81-86 | `for_day(d)` keeps exactly the entries whose start date is d, as an order-preserving subsequence no longer than the log |
| TimeLog.EntriesOnAppend | src/time_log.rs:81-86 | appending an entry extends only the day of its start date |
| TimeLog.RunAppendOnly | src/time_log.rs:53-79 | over any sequence of start/stop calls, earlier entries are never changed and the list grows by exactly one entry per call that closes a session |
| TimeLog.RunWellFormed | src/time_log.rs:30-32 | with a clock that never runs backwards, every entry has a non-negative duration |
| TimeLogTests.StartWorklogFresh | src/time_log.rs:95-101 | starting on a new log gives Ok(None) |
| TimeLogTests.StartWorklogOverwrite | src/time_log.rs:103-111 | starting while tracking ABC gives the warning that ABC is stopped |
| TimeLogTests.StopNonexistingWorkload | src/time_log.rs:113-119 | stopping a new log is the error "No time is currently tracked." |
| TimeLogTests.FilterItemsForDay | src/time_log.rs:121-140 | of an entry on 2000-01-01 and one on 2000-01-02, only the first is on 2000-01-01 |
| Grouping.SumTime | src/report_creator.rs:152-155 | no contract of its own: the fold of `to_duration` over the entries from zero; `SumTimeAppend`, `SumTimeNonNegative` and `SumOverKeys` state its properties |
| Grouping.SumTimeAppend | src/report_creator.rs:152-155 | the summed duration of a concatenation is the sum of the two parts |
| Grouping.SumTimeNonNegative | src/report_creator.rs:152-155 | entries that do not end before they start sum to a non-negative duration |
| Grouping.GroupByKey | src/report_creator.rs:157-170 | the map's keys are exactly the keys that occur, and each key maps to that key's entries in their original order |
| Grouping.GroupsPartition | src/report_creator.rs:157-170 | every entry lies in the group of its own key and in no other; each group is a subsequence of the input |
| Grouping.SumOverKeys | src/report_creator.rs:144-155 | summing the groups of all the occurring keys once each gives the sum over all the entries |
| Window.IncludedDaysSpec | src/report_creator.rs:120-129 | the visited days are strictly ascending, and a day is in the list iff it lies in [first, last] and has entries or empty days are included |
| Window.IncludedDaysCount | src/report_creator.rs:120-129 | with empty days included, a window of n days lists n days |
| Window.WindowTotalIgnoresEmptyDays | src/report_creator.rs:124-131 | leaving out the empty days does not change a window's total |
| ReportCreator.NewDayReport | src/report_creator.rs:55-66 | no contract of its own: the day report keeps its projects and folds their durations into its total; `DayReportTotal` states what the total then is |
| ReportCreator.NewDateRangeReport | src/report_creator.rs:27-37 | no contract of its own: the range report keeps its days and folds their totals into its own; `ReportsDaysTotal` states what the total then is |
| ReportCreator.ReportProject | src/report_creator.rs:144-150 | no contract of its own: a project report named by the group's key with the summed duration of its entries; `CollectProjects` states the reports it yields |
| ReportCreator.SerializeDuration | src/report_creator.rs:102-107 | the serialised value is the whole number of minutes, truncated toward zero for either sign |
| ReportCreator.ByProjectIsComparator | src/report_creator.rs:139 | ordering project reports by name is antisymmetric and transitive |
| ReportCreator.ByProject | src/report_creator.rs:139 | no contract of its own: project reports compared by project name with `String::cmp`; `ByProjectIsComparator` states that this is a valid sort order |
| ReportCreator.CollectProjects | src/report_creator.rs:138-150 | one project report per group, named by its key and summing that key's entries, with no name twice |
| ReportCreator.SortedDayReport | src/report_creator.rs:139-141 | sorting the collected reports by name and folding the total gives a report satisfying `IsDayReportFor` |
| ReportCreator.ReportDay | src/report_creator.rs:134-142 | for the entries of the date: one project per occurring name, each summing its entries, strictly ascending by name, and the total folded from the projects |
| ReportCreator.DayReportTotal | src/report_creator.rs:55-66 | a day total equals the sum of the durations of all the day's entries |
| ReportCreator.DayReportUnique | src/report_creator.rs:138-139 | the day report is determined by the day's entries, whatever order the hash map hands out its groups |
| ReportCreator.EmptyDayReport | src/report_creator.rs:134-142 | a day without entries has no projects and a zero total |
| ReportCreator.ReportsDaysTotal | src/report_creator.rs:27-37 | the folded total of the day reports is the sum of all the entries of their days |
| ReportCreator.ReportDays | src/report_creator.rs:114-132 | the range runs from date - (days - 1) to date; the day reports are those of the days in it that have entries (all of them when empty days are included), in ascending order; the total is the sum of those days' entries |
| ReportCreator.DisplayProject | src/report_creator.rs:90-100 | no contract of its own: indent, arrow, the name padded to 35, a space and the bracketed pretty duration; `ProjectLineShows` states where name and duration stand |
| ReportCreator.DayHeading | src/report_creator.rs:70-77 | no contract of its own: arrow, `%a. %F` of the date, a space padded to 25 and the bracketed pretty total; `DayShows` states what a day block shows |
| ReportCreator.DisplayDay | src/report_creator.rs:68-81 | no contract of its own: the heading followed by the project lines; `DayShows` states what it shows |
| ReportCreator.DisplayRange | src/report_creator.rs:40-45 | no contract of its own: the day blocks one after the other; `DisplayShowsProjects` states what it shows |
| ReportCreator.ProjectLines | src/report_creator.rs:90-100 | one line per project, in order |
| ReportCreator.DayTexts | src/report_creator.rs:68-81 | one block per day, in order |
| ReportCreator.ProjectLineShows | src/report_creator.rs:90-100 | a project line shows the name after the indent and arrow, and the bracketed pretty duration after the padded name |
| ReportCreator.DayShows | src/report_creator.rs:68-81 | a day block shows each of its projects' lines |
| ReportCreator.DisplayShowsProjects | src/report_creator.rs:40-45 | the text of a range report shows every project name and every bracketed project duration |
| ReportCreatorTests.TestEmptyLog | src/report_creator.rs:180-189 | an empty day reports a zero total and no projects |
| ReportCreatorTests.TestSameProject | src/report_creator.rs:191-204 | 30 and 10 minutes of Foo are one project Foo of 40 minutes |
| ReportCreatorTests.TestDifferentProjects | src/report_creator.rs:223-236 | Foo 30 and Bar 10 minutes give Bar then Foo, 40 minutes in all |
| ReportCreatorTests.TestReportDaysNumber | src/report_creator.rs:206-221 | zero days give no day reports, one day with empty days gives one |
| ReportCreatorTests.TwoDayWindow | src/report_creator.rs:238-249 | the two-day window ending on 2000-01-02 visits 2000-01-01 and 2000-01-02 |
| ReportCreatorTests.TestDifferentDays | src/report_creator.rs:238-249 | the two-day report has two days and 50 minutes in all |
| ReportCreatorTests.TwoDayFirstReport | src/report_creator.rs:267-275 | the first day of that report lists Bar 10 minutes then Foo 30 minutes |
| ReportCreatorTests.BracketHalfHour | src/report_creator.rs:263 | 30 minutes print as `[00h 30m]` |
| ReportCreatorTests.BracketTenMinutes | src/report_creator.rs:264 | 10 minutes print as `[00h 10m]` |
| ReportCreatorTests.TestDisplay | src/report_creator.rs:251-265 | the text of the two-day report contains Foo, Bar, `[00h 30m]` and `[00h 10m]` |
| LogAnalyzer.Cmp | src/log_analyzer.rs:75-89 | no contract of its own: projects by name, dates and range starts numerically, and ranges before dates before projects; `CmpIsComparator` and `EqMeaning` state its laws |
| LogAnalyzer.Eq | src/log_analyzer.rs:93-97 | no contract of its own: equality is `cmp` giving `Equal`; `EqMeaning` states when that holds |
| LogAnalyzer.CreateDurationSum | src/log_analyzer.rs:61-67 | no contract of its own: the fold of the children's durations from zero; `DurationSumAppend` states that it adds over concatenation |
| LogAnalyzer.ReportTicket | src/log_analyzer.rs:159-166 | no contract of its own: a childless project leaf with the summed duration of its entries; `CollectTickets` states the leaves it yields |
| LogAnalyzer.CmpReverse | src/log_analyzer.rs:75-89 | swapping the two categories reverses the comparison |
| LogAnalyzer.CmpTransitive | src/log_analyzer.rs:75-89 | Less is transitive across the three variants |
| LogAnalyzer.CmpIsComparator | src/log_analyzer.rs:75-89 | `Category::cmp` satisfies the comparator laws the sort relies on |
| LogAnalyzer.EqMeaning | src/log_analyzer.rs:84-97 | two categories are equal iff they are the same value or both are ranges with the same start, whatever their ends |
| LogAnalyzer.DurationSumAppend | src/log_analyzer.rs:62-66 | the duration sum of a concatenation is the sum of the parts |
| LogAnalyzer.ByCategoryIsComparator | src/log_analyzer.rs:150 | ordering reports by category is antisymmetric and transitive |
| LogAnalyzer.ByCategory | src/log_analyzer.rs:150 | no contract of its own: reports compared by their category; `ByCategoryIsComparator` states that this is a valid sort order |
| LogAnalyzer.CollectTickets | src/log_analyzer.rs:149-166 | one project leaf per group, summing that key's entries, with no category twice |
| LogAnalyzer.DistinctTickets | src/log_analyzer.rs:75-96 | distinct project categories never compare Equal |
| LogAnalyzer.SortedDayReport | src/log_analyzer.rs:150-156 | sorting the leaves by category and summing them gives a report satisfying `IsDayReportFor` |
| LogAnalyzer.ReportDay | src/log_analyzer.rs:145-157 | a Date node whose children are one project leaf per key of the day, each summing its entries, ascending by name, and whose duration sums the children |
| LogAnalyzer.DayReportTotal | src/log_analyzer.rs:154 | a day's duration is the sum of all the day's entries |
| LogAnalyzer.DayReportUnique | src/log_analyzer.rs:149-150 | the day report does not depend on the hash map's order |
| LogAnalyzer.ReportsDaysTotal | src/log_analyzer.rs:140 | the range duration sums all the entries of the reported days |
| LogAnalyzer.TicketsAsGroups | src/log_analyzer.rs:154-171 | the leaves' duration sum is the sum of their groups |
| LogAnalyzer.ExitAfterDays | src/log_analyzer.rs:123-136 | with days >= 1 the loop's exit test succeeds on exactly the days-th round |
| LogAnalyzer.PastDateNeverExits | src/log_analyzer.rs:132-135 | once the current date is past `date`, no number of rounds reaches the exit |
| LogAnalyzer.ZeroDaysNeverExits | src/log_analyzer.rs:123-135 | with days = 0 the loop starts the day after `date` and never exits |
| LogAnalyzer.TestsUntilExit | src/log_analyzer.rs:128-136 | no contract of its own: the number of exit tests the `loop` makes, stepping `curr_date` with `succ`, until it equals `date`, or none within the fuel; `ExitAfterDays`, `PastDateNeverExits` and `ZeroDaysNeverExits` state when it stops |
| LogAnalyzer.ReportDays | src/log_analyzer.rs:122-143 | for days >= 1: a DateRange node from date - (days - 1) to date whose children are the reports of that window's days with entries (or all of them), ascending, and whose duration sums their entries |
| LogAnalyzer.Line | src/log_analyzer.rs:31-48 | no contract of its own: the date line at depth 1, the padded project line at depth 2, nothing otherwise; `ProjectLevel` and `DayLevel` state what the levels print |
| LogAnalyzer.CategoryText | src/log_analyzer.rs:105-115 | no contract of its own: a project prints its name, a date `%a. %F`, a range its start and end in `%F` joined by ` to `; `CategoryTextExample` fixes two values |
| LogAnalyzer.CategoryTextExample | src/log_analyzer.rs:109-111 | 2000-01-01 prints as `Sat. 2000-01-01`, and the range from it to 2000-02-29 as `2000-01-01 to 2000-02-29` |
| LogAnalyzer.Format | src/log_analyzer.rs:29-54 | no contract of its own: a node's line followed by its children one level deeper; `DisplayLevels` states the resulting text |
| LogAnalyzer.FormatAll | src/log_analyzer.rs:50-52 | no contract of its own: the children formatted one after the other; `FormatAllBeyondProjects` states that deep levels print nothing |
| LogAnalyzer.Display | src/log_analyzer.rs:56-57 | no contract of its own: formatting from depth 0; `DisplayLevels` states the text it gives |
| LogAnalyzer.FormatBeyondProjects | src/log_analyzer.rs:29-54 | nodes at depth 3 or more print nothing, however many descendants they have |
| LogAnalyzer.ProjectLevel | src/log_analyzer.rs:40-52 | at depth 2 the children print one project line each, in order |
| LogAnalyzer.DayLevel | src/log_analyzer.rs:32-52 | at depth 1 each child prints its date line followed by its project lines |
| LogAnalyzer.DisplayLevels | src/log_analyzer.rs:23-58 | the root prints nothing itself; its children print in order, each with its day line and project lines |
| PrettyString.ToPrettyString | src/pretty_string.rs:11-14 | for a non-negative duration the `HHh MMm` text reads back, through `MinutesOfPretty` (which rejects minute fields of 60 or more), as the duration's whole minutes |
| PrettyString.RemainingInRange | src/pretty_string.rs:3-12 | for a non-negative duration, hours * 60 + remaining = total minutes, 0 <= remaining < 60, and hours = minutes / 60 |
| PrettyString.RemainingWhenNegative | src/pretty_string.rs:12 | for a negative duration the identity still holds and the remaining minutes lie in (-60, 0] |
| PrettyString.RemainingMinutes | src/pretty_string.rs:12 | no contract of its own: whole minutes minus 60 times whole hours; `RemainingInRange` and `RemainingWhenNegative` state its range |
| PrettyString.PrettyRoundTrip | src/pretty_string.rs:11-14 | the text is at least two hour digits, `h `, two minute digits below 60 and `m`; reading it back gives the whole minutes; hours >= 100 are never truncated |
| PrettyString.PrettyExampleZero | src/pretty_string.rs:13 | 0 prints as `00h 00m` |
| PrettyString.PrettyExampleHalfHour | src/report_creator.rs:263 | 30 minutes print as `00h 30m` |
| PrettyString.PrettyExampleTenMinutes | src/report_creator.rs:264 | 10 minutes print as `00h 10m` |
| PrettyString.PrettyExampleTwoHours | src/pretty_string.rs:11-14 | sanity example: 125 minutes print as `02h 05m` |
| Errors.New | src/lib.rs:117-124 | no contract of its own: an error with the message that prints as an error |
| Errors.Display | src/lib.rs:126-130 | no contract of its own: an error displays as its message alone |
| Errors.FromBoxed | src/lib.rs:132-136 | no contract of its own: a boxed error becomes a new error with the boxed error's text; `BoxedRoundTrip` states what survives |
| Errors.BoxedRoundTrip | src/lib.rs:117-136 | converting through a boxed error keeps the message and always sets `print_as_error`, so only genuine errors come back unchanged |
| Persistence.ParseSerialize | src/persistence.rs:86-96 | what `save_log` writes parses back as the same log |
| Persistence.Serialize | src/persistence.rs:93-95 | no contract of its own: the text `save_log` writes, in the stand-in encoding (the pending session, the entry count, the entries); `ParseSerialize` states that it reads back |
| Persistence.Parse | src/time_log.rs:49-51 | no contract of its own: `from_json`, which accepts only text that is one whole log and reports an error otherwise; `ParseSerialize` and `LoadAfterSave` state what it gives on saved text |
| Persistence.LoadOrCreateLog | src/persistence.rs:86-91 | no stored file gives a new, empty log |
| Persistence.LoadAfterSave | src/persistence.rs:86-96 | loading after a save gives the saved log |
| Persistence.SerializeShowsPending | src/persistence.rs:93-95 | the saved text of a tracking log contains the project name, for a name serde_json writes verbatim (no `"`, `\` or control character) |
| App.Dispatch | src/lib.rs:27-91 | no contract of its own: per subcommand the result, the new log and whether it is saved; `Execute` is proved to follow it and `StatusNeedsPending`, `ResumeOutcome`, `StopClosesSession` and `StopWhenIdle` state its cases |
| App.ForDayOf | src/lib.rs:25 | no contract of its own: the `for_day` of the loaded log that `ReportCreator::new(&log)` reports on, which is `TimeLog.EntriesOn`; `Execute` and `RunApp` are proved to report through it |
| App.RunOn | src/lib.rs:22-98 | no contract of its own: a load failure is reported with the store unchanged, otherwise `Dispatch` decides the result and whether the log is written back; `RunApp` is proved to follow it |
| App.TrackingLines | src/lib.rs:100-109 | no contract of its own: the warning line when there is one, then the tracking line; `StartTracking` is proved to print it |
| App.TrackedLine | src/lib.rs:35-40 | no contract of its own: the line naming the pretty time tracked and the project; `ExecStop` is proved to print it |
| App.PrintedLines | src/lib.rs:27-91 | no contract of its own: what each subcommand other than `report` prints on a loaded log; `Execute` and `RunApp` are proved to print it |
| App.TestFileHandler.constructor | src/lib.rs:333-337 | a new handler stores nothing |
| App.TestFileHandler.ReadFile | src/lib.rs:340-342 | reading gives the stored text |
| App.TestFileHandler.WriteFile | src/lib.rs:344-347 | writing replaces the stored text |
| App.LatestEntry | src/lib.rs:74 | there is a latest entry exactly when the log has entries, and it is the last one appended |
| App.StartTracking | src/lib.rs:100-109 | the log takes the `start_log` transition; it prints the warning (if any) and then "Tracking time for project p" |
| App.ExecStop | src/lib.rs:32-41 | the result and the new log are `Dispatch`'s: when idle it fails as `stop_pending` does and the log is unchanged; otherwise the session is closed and the printed line names the time tracked and the project |
| App.ExecStatus | src/lib.rs:49-73 | status fails with the fallback message when idle; otherwise it prints the filled-in format and changes nothing |
| App.ExecResume | src/lib.rs:74-90 | the result and the new log are `Dispatch`'s: resume fails with the log unchanged when already tracking or when there is no entry; otherwise it tracks the last entry's project and prints the tracking lines |
| App.Execute | src/lib.rs:23-91 | result and new log are `Dispatch`'s, failures included; `modified` is set by `start`, by `stop` (even when it fails) and by a successful `resume`; what is printed is `PrintedLines`, or one range report for `report` |
| App.RunApp | src/lib.rs:22-98 | the result and stored text are those of `RunOn`: a load failure is reported and changes nothing; the log is written only after a successful start, stop or resume |
| App.FailedRunKeepsStore | src/lib.rs:22-98 | a run that fails leaves the stored text unchanged |
| App.QueriesKeepStore | src/lib.rs:42-73 | report and status never write storage |
| App.NextRunSees | src/lib.rs:93-95 | the next run loads the log the subcommand produced when it succeeded, and the previous log when it failed |
| App.StatusNeedsPending | src/lib.rs:49-73 | status succeeds iff a session is pending; when idle it fails with the fallback (or the default message) and print_as_error = false |
| App.ResumeOutcome | src/lib.rs:74-90 | resume while tracking fails with "Already tracking time for project p"; with no history it fails with the no-latest-entry message; both change nothing; otherwise it tracks the last entry's project from now and keeps the entries |
| App.StopClosesSession | src/lib.rs:32-41 | stop on a tracking log succeeds and stores an idle log with the session appended as its last entry |
| App.StopWhenIdle | src/lib.rs:34 | stop on an idle log fails with "No time is currently tracked." and changes nothing |
| App.StartStoresProject | src/lib.rs:28-31 | after start, the stored text contains the project name, for a name serde_json writes verbatim |
| StatusLine.Fill | src/lib.rs:65-69 | no contract of its own: the four `replace` calls in the order `%p`, `%d`, `%t`, `%D`; `FillProject`, `FillProjectIn` and `FillDuration` state what single placeholders become |
| StatusLine.StatusText | src/lib.rs:61-71 | no contract of its own: the format filled with the pending project, its start date (`%F`), start time (`%R`) and pretty pending duration; `ExecStatus` is proved to print it |
| StatusLine.FillProject | src/lib.rs:65-69 | the status line for the format `%p` is the project name, whatever the date, time and duration texts, when the name holds no other placeholder |
| StatusLine.FillProjectIn | src/lib.rs:65-69 | a single `%p` inside a larger format becomes the project name and the text around it is kept, when the surrounding text holds no other `%p` (and does not end in `%`) and the filled line holds no other placeholder |
| StatusLine.FillDuration | src/lib.rs:65-69 | the status line for the format `%D` is the pending duration text, whatever the name, date and time |
| AppTests.StatusOnEmptyFallback | src/lib.rs:155-169 | status on an empty store fails with message "Foo" and print_as_error = false |
| AppTests.StatusOnEmptyNoFallback | src/lib.rs:171-185 | without a fallback the message is the default one |
| AppTests.StartTrackingStoresName | src/lib.rs:187-202 | start Foo succeeds and the stored text contains Foo |
| AppTests.StatusAfterStartTracking | src/lib.rs:263-285 | status after start succeeds |
| AppTests.StopTracking | src/lib.rs:287-327 | after start and stop, both status and a second stop fail |
| AppTests.ResumeAfterStop | src/lib.rs:204-261 | resume with no history fails and stores nothing; after start and stop, status fails, resume tracks Foo again from the new time, and status then succeeds |
| Chrono.DateOf | src/time_log.rs:84 | the date of a timestamp is the day whose 86400 seconds contain it |
| Chrono.HoursFromMinutes | src/pretty_string.rs:12 | whole hours are the whole minutes divided by 60, truncated toward zero |
| Chrono.NumMinutes | src/pretty_string.rs:12 | no contract of its own: `Duration::num_minutes`, seconds divided by 60 truncated toward zero; `HoursFromMinutes` and `PrettyString.RemainingInRange` state how it relates to hours |
| Chrono.NumHours | src/pretty_string.rs:12-13 | no contract of its own: `Duration::num_hours`, seconds divided by 3600 truncated toward zero; `HoursFromMinutes` states that it is the whole minutes divided by 60 |
| Chrono.Succ | src/log_analyzer.rs:135 | no contract of its own: `Date::succ`, the next day; `ExitAfterDays` states how many steps reach `date` |
| Chrono.IsoDate | src/lib.rs:67 | no contract of its own: `%F`, the proleptic Gregorian year, month and day of the day number; `CivilExampleY2K` fixes one value |
| Chrono.WeekdayAbbrev | src/report_creator.rs:74 | no contract of its own: `%a`, the weekday counted from Thursday 1970-01-01 |
| Chrono.TimeOfDayText | src/lib.rs:68 | `%R` is five characters, two digits of hour below 24, `:` and two digits of minute below 60, naming the minute of the day that contains the timestamp |
| Chrono.CivilExampleY2K | src/report_creator.rs:285-287 | day 10957 is 2000-01-01 |
| Chrono.CivilExampleEpoch | src/lib.rs:67 | sanity example: day 0 is 1970-01-01 |
| Chrono.CivilExampleLeapDay | src/lib.rs:67 | sanity example: day 11016 is the leap day 2000-02-29 |
| Chrono.CivilExampleBeforeEpoch | src/lib.rs:67 | sanity example: day -1 is 1969-12-31 |
| Chrono.IsoDateExamples | src/log_analyzer.rs:109-111 | sanity example: `%F` prints 2000-01-01 and 2000-02-29 as such |
| Chrono.WeekdayExamples | src/log_analyzer.rs:109 | sanity example: `%a` gives `Thu` for 1970-01-01 and `Sat` for 2000-01-01 |
| Orders.SortBy | src/report_creator.rs:139 | no contract of its own: `sort_unstable_by` as an insertion sort; `SortBySpec` states that it sorts and permutes |
| Orders.SortBySpec | src/report_creator.rs:139 | with a comparator that obeys the laws and finds no two elements equal, the result is a strictly sorted permutation of the input |
| Orders.InsertSorted | src/report_creator.rs:139 | inserting an element distinct from every element of a strictly sorted sequence keeps it strictly sorted |
| Orders.InsertMultiset | src/report_creator.rs:139 | inserting adds exactly that one element |
| Orders.StrictlySortedUnique | src/report_creator.rs:139 | two strictly sorted sequences with the same elements are equal |
| Strings.CompareIsComparator | src/report_creator.rs:139 | `String::cmp` (lexicographic) satisfies the comparator laws |
| Strings.Compare | src/report_creator.rs:139 | no contract of its own: `String::cmp`, character by character with a proper prefix first; `CompareEqual` and `CompareIsComparator` state its laws |
| Strings.CompareEqual | src/report_creator.rs:139 | two names compare Equal exactly when they are the same string |
| Strings.Replace | src/lib.rs:65-69 | no contract of its own: `str::replace`, left-to-right non-overlapping occurrences replaced; `ReplaceAbsent`, `ReplaceWhole` and `ReplaceSplice` state its cases |
| Strings.ReplaceAbsent | src/lib.rs:65-69 | `replace` of a pattern that does not occur changes nothing |
| Strings.ReplaceWhole | src/lib.rs:65-69 | a text that is exactly the pattern becomes exactly the replacement |
| Strings.ReplaceSplice | src/lib.rs:65-69 | an occurrence that no earlier occurrence overlaps is replaced, the text before it kept and the text after it replaced on its own |
| Strings.ZeroPad2 | src/pretty_string.rs:13 | no contract of its own: `{:02}` on a signed number, a sign before the digits of a negative one; `ZeroPad2Digits` states what it gives for non-negative numbers |
| Strings.ZeroPad2Digits | src/pretty_string.rs:13 | a non-negative number prints as at least two digits (exactly two below 10) that denote it |
| Strings.PadRight | src/log_analyzer.rs:34-42 | `{:<w}`: the text followed by spaces up to width w, never cut |

## Left out

- Input and output:
  - printing (`println!`) is modelled as the list of lines a run prints;
  - ANSI colours and bold (`colored`) are dropped;
  - the report's pretty JSON text is not modelled; `App.Output.RangeReport` records the report and whether JSON was asked for.
- The serde_json text of the time log: `Persistence` uses its own length-prefixed encoding on the same values and proves its round trip. JSON parse errors become one fixed message.
- Persistence.SerializeShowsPending and App.StartStoresProject: stated only for project names that serde_json writes verbatim (`Persistence.JsonVerbatim`), since serde_json escapes `"`, `\` and control characters; the position of the name in the text is that of the stand-in encoding.
- `From<serde_json::Error>` (src/lib.rs:138-142) is not modelled: no serde_json error reaches it in the model, as JSON output and JSON parsing are not modelled.
- `FsFileHandler` is not modelled. Paths, the `TRACKIE_CONFIG` environment variable, legacy-file migration, `create_dir_all`, `rename` and file errors are I/O; the handler is the in-memory `TestFileHandler`.
- src/cli.rs, src/main.rs, tests/cli-tests.rs and benches/perf_test.rs are not part of this model. This revision's cli.rs has only `start`, `stop` and `report` (src/cli.rs:12-19); lib.rs is written against a later cli.rs with `status`, `resume` and `--json`, so the subcommands follow lib.rs.
- lib.rs takes `DEFAULT_STATUS_FORMAT` and `DEFAULT_EMPTY_STATUS_MSG` from that later cli.rs, so they are the parameter `App.Defaults`.
- lib.rs and report_creator.rs are written against a later `TimeLog` than time_log.rs (`project_name`, `get_latest_entry`, `get_pending_duration`, `new_testing_only`). The model assumes:
  - `get_latest_entry` is the last appended entry;
  - `get_pending_duration` is now minus start;
  - `stop_pending`'s returned session is read before stopping, since `time_log.rs` returns `Ok(None)`;
  - `new_testing_only` test logs are the `forDay` functions of `ReportCreatorTests`.
- The clock, time zone and calendar:
  - `Local::now()` is a parameter, and every reading within one run is the same `now`;
  - dates are day numbers of local time via floor division, with no time zone or DST;
  - sub-second precision is dropped;
  - `%a`, `%F` and `%R` are computed from day numbers (`Chrono`).
- Widths: `u32` days and `i64` durations are unbounded integers. chrono's date range limit (where `succ` panics) is not modelled.
- Hash-map iteration order: `CollectProjects`/`CollectTickets` pick the remaining keys in an unspecified order (`:|`). The lemmas `DayReportUnique` show that the result does not depend on that order.
- ReportCreator.ReportDay: `sort_unstable_by` on the `Vec` is modelled as `Orders.SortBy` on values (an insertion sort proved to give a strictly sorted permutation), not as an in-place array sort.
- LogAnalyzer.ReportDay: the in-place sort is modelled on values, as in `ReportCreator.ReportDay`.
- LogAnalyzer.ReportDays: requires days >= 1. With days = 0 the source loop never exits (see Findings); `TestsUntilExit` and `ZeroDaysNeverExits` model that case.
- `{:<25}`/`{:<35}` padding is modelled by `Strings.PadRight`. Its exact column layout is not proved beyond what the display lemmas state.
- Error propagation that cannot happen in the model is not modelled: a failing `start_log`, a failing `write_file` of `TestFileHandler`, and a serde_json error while printing a report.

## Findings

| source | as written | input that shows it | evidently intended | confidence | as-written member | corrected member |
|---|---|---|---|---|---|---|
| src/log_analyzer.rs:123-136 | `report_days` starts at `date - (days - 1)` and its `loop` exits only when `curr_date == date` | `days = 0`: the loop starts at `date + 1`, moves away from `date` and never exits (with chrono's bounded dates it runs until `succ` panics at the last date) | zero days give an empty range, as the `while curr_date <= date` loop of report_creator.rs:124 does | not executed | LogAnalyzer.ZeroDaysNeverExits | ReportCreator.ReportDays |
