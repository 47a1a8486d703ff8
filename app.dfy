/**
 * `run_app`: load the log through the file handler, run one subcommand on
 * it, and write the log back only when the subcommand changed it and
 * succeeded.
 *
 * The file handler is the in-memory `TestFileHandler`, a cell holding the
 * stored text or nothing. The clock is the parameter `now` (today is
 * `DateOf(now)`); the default status format and the default message of an
 * idle status are the parameter `defaults`.
 */
module App {
  import opened Wrappers
  import opened Strings
  import opened Chrono
  import opened PrettyString
  import opened Errors
  import opened TimeLog
  import opened ReportCreator
  import opened Persistence
  import opened StatusLine

  /** `Subcommand`, with the fields of its argument structs. */
  datatype Subcommand =
    | Start(projectName: string)
    | Stop
    | Report(days: nat, includeEmptyDays: bool, json: bool)
    | Status(format: Option<string>, fallback: Option<string>)
    | Resume

  /** `DEFAULT_STATUS_FORMAT` and `DEFAULT_EMPTY_STATUS_MSG`. */
  datatype Defaults = Defaults(statusFormat: string, emptyStatusMsg: string)

  /**
   * One `println!`: a line of text, or a range report, printed as pretty
   * JSON when `json` holds and by `DisplayRange` otherwise.
   */
  datatype Output = Line(text: string) | RangeReport(report: DateRangeReport, json: bool)

  /** `TestFileHandler`: reading gives the stored text, writing replaces it. */
  class TestFileHandler {
    var content: Option<string>

    /** `TestFileHandler::default`: nothing stored. */
    constructor ()
      ensures content == None
    {
      content := None;
    }

    method ReadFile() returns (r: Option<string>)
      ensures r == content
    {
      r := content;
    }

    method WriteFile(text: string)
      modifies this
      ensures content == Some(text)
    {
      content := Some(text);
    }
  }

  const AlreadyTrackingPrefix: string := "Already tracking time for project "
  const NoLatestEntry: string := "Unable to find latest time log. Maybe no time was ever tracked?"

  /** `get_latest_entry`: the most recently appended entry, if any. */
  function LatestEntry(s: LogState): (r: Option<LogEntry>)
    ensures r.Some? <==> s.entries != []
    ensures r.Some? ==> r.value == s.entries[|s.entries| - 1]
  {
    if s.entries == [] then None else Some(s.entries[|s.entries| - 1])
  }

  /** What a subcommand does to a loaded log: its result, the new log, and whether the log is saved. */
  datatype Effect = Effect(result: Result<(), TrackieError>, log: LogState, save: bool)

  function Dispatch(s: LogState, cmd: Subcommand, now: Timestamp, defaults: Defaults): Effect {
    match cmd
    case Start(p) => Effect(Ok(()), StartLogStep(s, p, now).0, true)
    case Stop =>
      (match StopPendingStep(s, now)
       case Err(e) => Effect(Err(FromBoxed(Display(e))), s, false)
       case Ok(t) => Effect(Ok(()), t, true))
    case Report(_, _, _) => Effect(Ok(()), s, false)
    case Status(_, fallback) =>
      if s.pending.None? then Effect(Err(TrackieError(fallback.UnwrapOr(defaults.emptyStatusMsg), false)), s, false)
      else Effect(Ok(()), s, false)
    case Resume =>
      if s.pending.Some? then Effect(Err(New(AlreadyTrackingPrefix + s.pending.value.key)), s, false)
      else if s.entries == [] then Effect(Err(New(NoLatestEntry)), s, false)
      else Effect(Ok(()), StartLogStep(s, LatestEntry(s).value.key, now).0, true)
  }

  /** One run on the stored text: the result, and the stored text afterwards. */
  function RunOn(stored: Option<string>, cmd: Subcommand, now: Timestamp, defaults: Defaults): (Result<(), TrackieError>, Option<string>) {
    match LoadOrCreateLog(stored)
    case Err(m) => (Err(FromBoxed(m)), stored)
    case Ok(s) =>
      var eff := Dispatch(s, cmd, now, defaults);
      (eff.result, if eff.save then Some(Serialize(eff.log)) else stored)
  }

  /** The lines `start_tracking` prints: the warning, if any, then the confirmation. */
  function TrackingLines(warn: Option<string>, project: string): seq<Output> {
    (if warn.Some? then [Line("WARN: " + warn.value)] else []) + [Line("Tracking time for project " + project)]
  }

  /** The line `stop` prints: the time tracked and the project. */
  function TrackedLine(p: PendingLog, now: Timestamp): Output {
    Line("Tracked " + ToPrettyString(now - p.start) + " on project " + p.key)
  }

  /** What a subcommand other than `Report` prints on a loaded log. */
  function PrintedLines(s: LogState, cmd: Subcommand, now: Timestamp, defaults: Defaults): seq<Output> {
    match cmd
    case Start(p) => TrackingLines(StartLogStep(s, p, now).1, p)
    case Stop =>
      if s.pending.None? then []
      else [TrackedLine(s.pending.value, now)]
    case Report(_, _, _) => []
    case Status(format, _) =>
      if s.pending.None? then [] else [Line(StatusText(format.UnwrapOr(defaults.statusFormat), s.pending.value, now))]
    case Resume =>
      if s.pending.Some? || s.entries == [] then []
      else TrackingLines(StartLogStep(s, LatestEntry(s).value.key, now).1, LatestEntry(s).value.key)
  }

  /** The entries of a loaded log filed under a day, as `ReportCreator::new(&log)` sees them. */
  function ForDayOf(s: LogState): Date -> seq<LogEntry> {
    d => EntriesOn(s.entries, d)
  }

  /** `start_tracking`: start the log on `project` and print what happened. */
  method StartTracking(log: TimeLog, project: string, now: Timestamp) returns (out: seq<Output>)
    modifies log
    ensures log.State() == StartLogStep(old(log.State()), project, now).0
    ensures out == TrackingLines(StartLogStep(old(log.State()), project, now).1, project)
  {
    var started := log.StartLog(project, now);
    out := TrackingLines(started.value, project);
  }

  /** `stop`: close the pending session and print what was tracked, or fail when idle. */
  method ExecStop(log: TimeLog, now: Timestamp, defaults: Defaults)
    returns (r: Result<(), TrackieError>, out: seq<Output>)
    modifies log
    ensures r == Dispatch(old(log.State()), Subcommand.Stop, now, defaults).result
    ensures log.State() == Dispatch(old(log.State()), Subcommand.Stop, now, defaults).log
    ensures out == PrintedLines(old(log.State()), Subcommand.Stop, now, defaults)
  {
    var pending := log.pending;
    var stopped := log.StopPending(now);
    if stopped.Err? {
      return Err(FromBoxed(Display(stopped.error))), [];
    }
    r := Ok(());
    out := [TrackedLine(pending.value, now)];
  }

  /** `status`: print the status line of the pending session, or fail with the fallback message. */
  method ExecStatus(log: TimeLog, format: Option<string>, fallback: Option<string>, now: Timestamp, defaults: Defaults)
    returns (r: Result<(), TrackieError>, out: seq<Output>)
    ensures r == Dispatch(log.State(), Status(format, fallback), now, defaults).result
    ensures out == PrintedLines(log.State(), Status(format, fallback), now, defaults)
  {
    if log.pending.None? {
      return Err(TrackieError(fallback.UnwrapOr(defaults.emptyStatusMsg), false)), [];
    }
    r := Ok(());
    out := [Line(StatusText(format.UnwrapOr(defaults.statusFormat), log.pending.value, now))];
  }

  /** `resume`: start tracking the project of the latest entry, unless already tracking or nothing was ever tracked. */
  method ExecResume(log: TimeLog, now: Timestamp, defaults: Defaults)
    returns (r: Result<(), TrackieError>, out: seq<Output>)
    modifies log
    ensures r == Dispatch(old(log.State()), Resume, now, defaults).result
    ensures log.State() == Dispatch(old(log.State()), Resume, now, defaults).log
    ensures out == PrintedLines(old(log.State()), Resume, now, defaults)
  {
    var latest := LatestEntry(log.State());
    if log.pending.Some? {
      return Err(New(AlreadyTrackingPrefix + log.pending.value.key)), [];
    } else if latest.None? {
      return Err(New(NoLatestEntry)), [];
    }
    r := Ok(());
    out := StartTracking(log, latest.value.key, now);
  }

  /**
   * The `match o.sub_cmd` of `run_app` on a loaded log: `modified` is set
   * by `start` and `stop` and by a `resume` that succeeds, and the result, the new log
   * and what is printed follow `Dispatch` and `PrintedLines`; `Report`
   * prints the report of the `days` days up to today.
   */
  method Execute(log: TimeLog, cmd: Subcommand, now: Timestamp, defaults: Defaults)
    returns (r: Result<(), TrackieError>, out: seq<Output>, modified: bool)
    modifies log
    ensures r == Dispatch(old(log.State()), cmd, now, defaults).result
    ensures modified <==> cmd.Stop? || Dispatch(old(log.State()), cmd, now, defaults).save
    ensures log.State() == Dispatch(old(log.State()), cmd, now, defaults).log
    ensures !cmd.Report? ==> out == PrintedLines(old(log.State()), cmd, now, defaults)
    ensures cmd.Report? ==>
              && |out| == 1 && out[0].RangeReport? && out[0].json == cmd.json
              && IsRangeReportFor(ForDayOf(old(log.State())), DateOf(now), cmd.days, cmd.includeEmptyDays, out[0].report)
  {
    match cmd {
      case Start(p) =>
        r, modified := Ok(()), true;
        out := StartTracking(log, p, now);
      case Stop =>
        modified := true;
        r, out := ExecStop(log, now, defaults);
      case Report(days, inc, json) =>
        var report := ReportDays(ForDayOf(log.State()), DateOf(now), days, inc);
        r, out, modified := Ok(()), [RangeReport(report, json)], false;
      case Status(format, fallback) =>
        modified := false;
        r, out := ExecStatus(log, format, fallback, now, defaults);
      case Resume =>
        r, out := ExecResume(log, now, defaults);
        modified := r.Ok?;
    }
  }

  /**
   * `run_app`: the result and the stored text are those of `RunOn`; a
   * failed load prints nothing, and a loaded log prints what `Execute`
   * prints. The log is written back only when it was modified and nothing
   * failed.
   */
  method RunApp(cmd: Subcommand, fh: TestFileHandler, now: Timestamp, defaults: Defaults)
    returns (r: Result<(), TrackieError>, out: seq<Output>)
    modifies fh
    ensures (r, fh.content) == RunOn(old(fh.content), cmd, now, defaults)
    ensures LoadOrCreateLog(old(fh.content)).Err? ==> out == []
    ensures LoadOrCreateLog(old(fh.content)).Ok? && !cmd.Report? ==>
              out == PrintedLines(LoadOrCreateLog(old(fh.content)).value, cmd, now, defaults)
    ensures LoadOrCreateLog(old(fh.content)).Ok? && cmd.Report? ==>
              && |out| == 1 && out[0].RangeReport? && out[0].json == cmd.json
              && IsRangeReportFor(ForDayOf(LoadOrCreateLog(old(fh.content)).value), DateOf(now),
                                  cmd.days, cmd.includeEmptyDays, out[0].report)
  {
    var stored := fh.ReadFile();
    var loaded := LoadOrCreateLog(stored);
    if loaded.Err? {
      return Err(FromBoxed(loaded.error)), [];
    }
    var log := new TimeLog.FromState(loaded.value);
    var modified;
    r, out, modified := Execute(log, cmd, now, defaults);
    if r.Ok? && modified {
      fh.WriteFile(Serialize(log.State()));
    }
  }

  /** The log that a run leaves stored, read back on the next run. */
  function StoredLog(stored: Option<string>, cmd: Subcommand, now: Timestamp, defaults: Defaults): Result<LogState, string> {
    LoadOrCreateLog(RunOn(stored, cmd, now, defaults).1)
  }

  /** A run that fails leaves the stored text as it was. */
  lemma FailedRunKeepsStore(stored: Option<string>, cmd: Subcommand, now: Timestamp, defaults: Defaults)
    requires RunOn(stored, cmd, now, defaults).0.Err?
    ensures RunOn(stored, cmd, now, defaults).1 == stored
  {
  }

  /** `report` and `status` never write the log. */
  lemma QueriesKeepStore(stored: Option<string>, cmd: Subcommand, now: Timestamp, defaults: Defaults)
    requires cmd.Report? || cmd.Status?
    ensures RunOn(stored, cmd, now, defaults).1 == stored
  {
  }

  /**
   * On a loadable store, the next run loads the log the subcommand
   * produced when it succeeded, and the previous log when it failed.
   */
  lemma {:induction false} NextRunSees(stored: Option<string>, cmd: Subcommand, now: Timestamp, defaults: Defaults)
    requires LoadOrCreateLog(stored).Ok?
    ensures var s := LoadOrCreateLog(stored).value;
            StoredLog(stored, cmd, now, defaults) ==
              Ok(if RunOn(stored, cmd, now, defaults).0.Ok? then Dispatch(s, cmd, now, defaults).log else s)
  {
    var s := LoadOrCreateLog(stored).value;
    var eff := Dispatch(s, cmd, now, defaults);
    if eff.save {
      LoadAfterSave(eff.log);
    }
  }

  /** `status` succeeds exactly when a session is pending; on an idle log it fails quietly with the fallback message. */
  lemma StatusNeedsPending(stored: Option<string>, format: Option<string>, fallback: Option<string>, now: Timestamp, defaults: Defaults)
    requires LoadOrCreateLog(stored).Ok?
    ensures var s := LoadOrCreateLog(stored).value;
            var r := RunOn(stored, Status(format, fallback), now, defaults).0;
            && (r.Ok? <==> s.pending.Some?)
            && (s.pending.None? ==> r == Err(TrackieError(fallback.UnwrapOr(defaults.emptyStatusMsg), false)))
  {
  }

  /**
   * `resume` on an idle log with history starts tracking the project of the
   * last entry at `now` and keeps the entries; while tracking, or without
   * history, it fails with the matching message and changes nothing.
   */
  lemma {:induction false} ResumeOutcome(stored: Option<string>, now: Timestamp, defaults: Defaults)
    requires LoadOrCreateLog(stored).Ok?
    ensures var s := LoadOrCreateLog(stored).value;
            var r := RunOn(stored, Resume, now, defaults);
            && (s.pending.Some? ==> r == (Err(New(AlreadyTrackingPrefix + s.pending.value.key)), stored))
            && (s.pending.None? && s.entries == [] ==> r == (Err(New(NoLatestEntry)), stored))
            && (s.pending.None? && s.entries != [] ==>
                  r.0 == Ok(()) &&
                  StoredLog(stored, Resume, now, defaults) ==
                    Ok(LogState(Some(PendingLog(s.entries[|s.entries| - 1].key, now)), s.entries)))
  {
    NextRunSees(stored, Resume, now, defaults);
  }

  /** `stop` on a tracking log closes the session into a last entry and leaves the stored log idle. */
  lemma {:induction false} StopClosesSession(stored: Option<string>, now: Timestamp, defaults: Defaults)
    requires LoadOrCreateLog(stored).Ok? && LoadOrCreateLog(stored).value.pending.Some?
    ensures var s := LoadOrCreateLog(stored).value;
            && RunOn(stored, Subcommand.Stop, now, defaults).0 == Ok(())
            && StoredLog(stored, Subcommand.Stop, now, defaults) ==
                 Ok(LogState(None, s.entries + [FromTimeLog(s.pending.value, now)]))
  {
    NextRunSees(stored, Subcommand.Stop, now, defaults);
  }

  /** `stop` on an idle log fails with the error of `stop_pending` and changes nothing. */
  lemma StopWhenIdle(stored: Option<string>, now: Timestamp, defaults: Defaults)
    requires LoadOrCreateLog(stored).Ok? && LoadOrCreateLog(stored).value.pending.None?
    ensures RunOn(stored, Subcommand.Stop, now, defaults) == (Err(New(NothingTracked)), stored)
  {
  }

  /** The text `save_log` writes after `start` names the project, when serde_json writes the name verbatim. */
  lemma StartStoresProject(stored: Option<string>, p: string, now: Timestamp, defaults: Defaults)
    requires LoadOrCreateLog(stored).Ok? && JsonVerbatim(p)
    ensures RunOn(stored, Subcommand.Start(p), now, defaults).1.Some?
    ensures Occurs(p, RunOn(stored, Subcommand.Start(p), now, defaults).1.value)
  {
    var log := StartLogStep(LoadOrCreateLog(stored).value, p, now).0;
    SerializeShowsPending(log);
  }
}
