/** The unit tests of the time log, run on a fresh `TimeLog` object. */
module TimeLogTests {
  import opened Wrappers
  import opened Chrono
  import opened Errors
  import opened TimeLog

  /** `create_log`: a session on day `day` of January 2000 from 04:00:20 lasting `dur` minutes. */
  function CreateLog(day: nat, dur: nat, name: string): LogEntry {
    var start := (10957 + day - 1) * SecondsPerDay + 4 * 3600 + 20;
    LogEntry(name, start, start + dur * 60)
  }

  /** `start_worklog_fresh`: starting on a new log gives no warning. */
  method StartWorklogFresh(now: Timestamp) returns (result: Result<Option<string>, TrackieError>)
    ensures result == Ok(None)
  {
    var l := new TimeLog();
    result := l.StartLog("ABC", now);
  }

  /** `start_worklog_overwrite`: starting while tracking warns that `ABC` is stopped. */
  method StartWorklogOverwrite(t1: Timestamp, t2: Timestamp) returns (result: Result<Option<string>, TrackieError>)
    ensures result == Ok(Some(StopWarning("ABC")))
  {
    var l := new TimeLog();
    var first := l.StartLog("ABC", t1);
    result := l.StartLog("DEF", t2);
  }

  /** `stop_nonexiting_workload`: stopping a new log fails. */
  method StopNonexistingWorkload(now: Timestamp) returns (result: Result<Option<string>, TrackieError>)
    ensures result == Err(New(NothingTracked))
  {
    var l := new TimeLog();
    result := l.StopPending(now);
  }

  /** `filter_items_for_day`: of a session on the 1st and one on the 2nd, only the first is on 2000-01-01. */
  lemma FilterItemsForDay()
    ensures EntriesOn([CreateLog(1, 30, "Target"), CreateLog(2, 40, "Fail")], 10957) == [CreateLog(1, 30, "Target")]
  {
    var target, fail := CreateLog(1, 30, "Target"), CreateLog(2, 40, "Fail");
    EntriesOnAppend([target], fail, 10957);
    EntriesOnAppend([], target, 10957);
    assert [target, fail] == [target] + [fail];
    assert [target] == [] + [target];
  }
}
