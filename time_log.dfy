/**
 * The time log: at most one pending session and the append-only list of
 * closed entries. `Local::now()` is the explicit parameter `now`.
 */
module TimeLog {
  import opened Wrappers
  import opened Chrono
  import opened Seqs
  import opened Errors

  /** The session being tracked: its project key and when it started. */
  datatype PendingLog = PendingLog(key: string, start: Timestamp)

  /** A closed session. */
  datatype LogEntry = LogEntry(key: string, start: Timestamp, end: Timestamp)

  /**
   * `LogEntry::from_time_log`: closes a pending session at `end`; the entry
   * keeps the session's key and lasts from its start to `end`.
   */
  function FromTimeLog(log: PendingLog, end: Timestamp): (e: LogEntry)
    ensures e.key == log.key && e.start == log.start
    ensures ToDuration(e) == end - log.start
  {
    LogEntry(log.key, log.start, end)
  }

  /** `LogEntry::to_duration`: end minus start, negative if the clock went backwards. */
  function ToDuration(e: LogEntry): (d: Duration)
    ensures e.start + d == e.end
    ensures d >= 0 <==> e.start <= e.end
  {
    e.end - e.start
  }

  /** The value of a `TimeLog`: what it serialises to. */
  datatype LogState = LogState(pending: Option<PendingLog>, entries: seq<LogEntry>)

  const NothingTracked: string := "No time is currently tracked."

  function StopWarning(key: string): string {
    "Stopping time-tracking for " + key
  }

  /** `start_log` as a transition: the new log and the warning it returns. */
  function StartLogStep(s: LogState, key: string, now: Timestamp): (LogState, Option<string>) {
    match s.pending
    case None => (LogState(Some(PendingLog(key, now)), s.entries), None)
    case Some(p) =>
      (LogState(Some(PendingLog(key, now)), s.entries + [FromTimeLog(p, now)]), Some(StopWarning(p.key)))
  }

  /** `stop_pending` as a transition: the new log, or the error for an idle log. */
  function StopPendingStep(s: LogState, now: Timestamp): Result<LogState, TrackieError> {
    match s.pending
    case None => Err(New(NothingTracked))
    case Some(p) => Ok(LogState(None, s.entries + [FromTimeLog(p, now)]))
  }

  /** The filter `for_day` applies: an entry belongs to the day of its start. */
  function StartsOn(date: Date): LogEntry -> bool {
    (e: LogEntry) => DateOf(e.start) == date
  }

  /** `for_day`: the entries that started on `date`, in log order. */
  function EntriesOn(entries: seq<LogEntry>, date: Date): seq<LogEntry> {
    Filter(StartsOn(date), entries)
  }

  /**
   * `for_day(d)` keeps exactly the entries whose start date is `d`, as an
   * order-preserving subsequence of the log.
   */
  lemma EntriesOnSpec(entries: seq<LogEntry>, date: Date)
    ensures forall e :: e in EntriesOn(entries, date) <==> e in entries && DateOf(e.start) == date
    ensures IsSubsequence(EntriesOn(entries, date), entries)
    ensures |EntriesOn(entries, date)| <= |entries|
  {
    forall e ensures e in EntriesOn(entries, date) <==> e in entries && DateOf(e.start) == date {
      FilterMembership(StartsOn(date), entries, e);
    }
    FilterIsSubsequence(StartsOn(date), entries);
    FilterLength(StartsOn(date), entries);
  }

  /** Appending an entry extends the day of its start date and no other. */
  lemma EntriesOnAppend(entries: seq<LogEntry>, e: LogEntry, date: Date)
    ensures EntriesOn(entries + [e], date) ==
            EntriesOn(entries, date) + (if DateOf(e.start) == date then [e] else [])
  {
    FilterAppend(StartsOn(date), entries, [e]);
  }

  class TimeLog {
    var pending: Option<PendingLog>
    var entries: seq<LogEntry>

    function State(): LogState
      reads this
    {
      LogState(pending, entries)
    }

    /** `TimeLog::new`: nothing pending, no entries. */
    constructor ()
      ensures pending == None && entries == []
    {
      pending := None;
      entries := [];
    }

    /** A log holding a given value, as `from_json` produces it. */
    constructor FromState(s: LogState)
      ensures State() == s
    {
      pending := s.pending;
      entries := s.entries;
    }

    /**
     * `start_log`: an idle log starts tracking and returns no warning; a
     * pending session is first closed into exactly one new entry and a
     * warning naming it is returned. The new session always starts at `now`.
     */
    method StartLog(key: string, now: Timestamp) returns (r: Result<Option<string>, TrackieError>)
      modifies this
      ensures pending == Some(PendingLog(key, now))
      ensures old(pending).None? ==> r == Ok(None) && entries == old(entries)
      ensures old(pending).Some? ==>
                r == Ok(Some(StopWarning(old(pending).value.key))) &&
                entries == old(entries) + [FromTimeLog(old(pending).value, now)]
      ensures (State(), r) == (StartLogStep(old(State()), key, now).0, Ok(StartLogStep(old(State()), key, now).1))
    {
      var warn: Option<string> := None;
      if pending.Some? {
        warn := Some(StopWarning(pending.value.key));
        var stopped := StopPending(now);
        assert stopped.Ok?;
      }
      pending := Some(PendingLog(key, now));
      r := Ok(warn);
    }

    /**
     * `stop_pending`: fails on an idle log without changing it; otherwise
     * appends exactly one entry (key and start copied, end = `now`) and
     * leaves the log idle.
     */
    method StopPending(now: Timestamp) returns (r: Result<Option<string>, TrackieError>)
      modifies this
      ensures old(pending).None? ==> r == Err(New(NothingTracked)) && pending == old(pending) && entries == old(entries)
      ensures old(pending).Some? ==>
                r == Ok(None) && pending == None &&
                entries == old(entries) + [FromTimeLog(old(pending).value, now)]
      ensures match StopPendingStep(old(State()), now)
              case Ok(s) => r.Ok? && State() == s
              case Err(e) => r == Err(e) && State() == old(State())
    {
      if pending.Some? {
        var entry := FromTimeLog(pending.value, now);
        entries := entries + [entry];
        pending := None;
        r := Ok(None);
      } else {
        r := Err(New(NothingTracked));
      }
    }

    /** `for_day`. */
    function ForDay(date: Date): seq<LogEntry>
      reads this
    {
      EntriesOn(entries, date)
    }
  }

  /** A `start` or `stop` call on the log, at a given time. */
  datatype Op = Start(key: string, at: Timestamp) | Stop(at: Timestamp)

  /** One call; a failing `stop` leaves the log as it was. */
  function Apply(s: LogState, op: Op): LogState {
    match op
    case Start(key, at) => StartLogStep(s, key, at).0
    case Stop(at) => match StopPendingStep(s, at) case Ok(t) => t case Err(_) => s
  }

  /**
   * Whether the next call closes a session: `start` (by its auto-close) and
   * `stop` both close one exactly when a session is pending.
   */
  predicate Closes(s: LogState) {
    s.pending.Some?
  }

  function Run(s: LogState, ops: seq<Op>): LogState
    decreases |ops|
  {
    if ops == [] then s else Run(Apply(s, ops[0]), ops[1..])
  }

  /** How many of the calls close a session. */
  function ClosedCount(s: LogState, ops: seq<Op>): nat
    decreases |ops|
  {
    if ops == [] then 0 else (if Closes(s) then 1 else 0) + ClosedCount(Apply(s, ops[0]), ops[1..])
  }

  /**
   * Over any sequence of calls the entry list only grows at its end, by
   * exactly one entry per call that closes a session.
   */
  lemma {:induction false} RunAppendOnly(s: LogState, ops: seq<Op>)
    ensures |Run(s, ops).entries| == |s.entries| + ClosedCount(s, ops)
    ensures Run(s, ops).entries[..|s.entries|] == s.entries
    decreases |ops|
  {
    if ops != [] {
      var t := Apply(s, ops[0]);
      assert |t.entries| == |s.entries| + (if Closes(s) then 1 else 0);
      assert t.entries[..|s.entries|] == s.entries;
      RunAppendOnly(t, ops[1..]);
      var u := Run(t, ops[1..]);
      assert u.entries[..|s.entries|] == u.entries[..|t.entries|][..|s.entries|];
    }
  }

  /** Every closed entry ends no earlier than it started. */
  predicate WellFormed(s: LogState) {
    forall i :: 0 <= i < |s.entries| ==> s.entries[i].start <= s.entries[i].end
  }

  /** The clock never reads earlier than the start of the pending session. */
  predicate NotBefore(s: LogState, t: Timestamp) {
    s.pending.Some? ==> s.pending.value.start <= t
  }

  function TimeOf(op: Op): Timestamp {
    match op
    case Start(_, at) => at
    case Stop(at) => at
  }

  /** The calls are made with a clock that does not run backwards. */
  predicate MonotoneClock(s: LogState, ops: seq<Op>)
    decreases |ops|
  {
    ops == [] || (NotBefore(s, TimeOf(ops[0])) && MonotoneClock(Apply(s, ops[0]), ops[1..]))
  }

  /** With a clock that does not run backwards every entry has a non-negative duration. */
  lemma {:induction false} RunWellFormed(s: LogState, ops: seq<Op>)
    requires WellFormed(s) && MonotoneClock(s, ops)
    ensures WellFormed(Run(s, ops))
    ensures forall i :: 0 <= i < |Run(s, ops).entries| ==> ToDuration(Run(s, ops).entries[i]) >= 0
    decreases |ops|
  {
    if ops != [] {
      RunWellFormed(Apply(s, ops[0]), ops[1..]);
    }
  }
}
