/**
 * The scenarios of `run_app`'s unit tests, each run starting from the
 * text the previous run left stored and from an empty `TestFileHandler`.
 */
module AppTests {
  import opened Wrappers
  import opened Strings
  import opened Chrono
  import opened Errors
  import opened TimeLog
  import opened Persistence
  import opened App

  /** `status_on_empty_fallback`: an idle status fails quietly with the given fallback. */
  lemma StatusOnEmptyFallback(now: Timestamp, defaults: Defaults)
    ensures RunOn(None, Status(None, Some("Foo")), now, defaults).0 == Err(TrackieError("Foo", false))
  {
    StatusNeedsPending(None, None, Some("Foo"), now, defaults);
  }

  /** `status_on_empty_no_fallback`: without a fallback the message is the default one. */
  lemma StatusOnEmptyNoFallback(now: Timestamp, defaults: Defaults)
    ensures RunOn(None, Status(None, None), now, defaults).0 == Err(TrackieError(defaults.emptyStatusMsg, false))
  {
    StatusNeedsPending(None, None, None, now, defaults);
  }

  /** `start_tracking`: the stored text afterwards contains the project name. */
  lemma StartTrackingStoresName(now: Timestamp, defaults: Defaults)
    ensures RunOn(None, Subcommand.Start("Foo"), now, defaults).0 == Ok(())
    ensures RunOn(None, Subcommand.Start("Foo"), now, defaults).1.Some?
    ensures Occurs("Foo", RunOn(None, Subcommand.Start("Foo"), now, defaults).1.value)
  {
    StartStoresProject(None, "Foo", now, defaults);
  }

  /** The stored text after starting `Foo` at `t1` on an empty handler. */
  function AfterStart(t1: Timestamp, defaults: Defaults): Option<string> {
    RunOn(None, Subcommand.Start("Foo"), t1, defaults).1
  }

  /** The stored text after starting `Foo` at `t1` and stopping at `t2`. */
  function AfterStop(t1: Timestamp, t2: Timestamp, defaults: Defaults): Option<string> {
    RunOn(AfterStart(t1, defaults), Subcommand.Stop, t2, defaults).1
  }

  lemma {:induction false} AfterStartLoads(t1: Timestamp, defaults: Defaults)
    ensures LoadOrCreateLog(AfterStart(t1, defaults)) == Ok(LogState(Some(PendingLog("Foo", t1)), []))
  {
    NextRunSees(None, Subcommand.Start("Foo"), t1, defaults);
  }

  lemma {:induction false} AfterStopLoads(t1: Timestamp, t2: Timestamp, defaults: Defaults)
    ensures RunOn(AfterStart(t1, defaults), Subcommand.Stop, t2, defaults).0 == Ok(())
    ensures LoadOrCreateLog(AfterStop(t1, t2, defaults)) == Ok(LogState(None, [LogEntry("Foo", t1, t2)]))
  {
    AfterStartLoads(t1, defaults);
    var started := AfterStart(t1, defaults);
    StopClosesSession(started, t2, defaults);
    assert StoredLog(started, Subcommand.Stop, t2, defaults) == LoadOrCreateLog(AfterStop(t1, t2, defaults));
    assert [] + [FromTimeLog(PendingLog("Foo", t1), t2)] == [LogEntry("Foo", t1, t2)];
  }

  /** `status_after_start_tracking`: a status right after a start succeeds. */
  lemma StatusAfterStartTracking(t1: Timestamp, t2: Timestamp, defaults: Defaults)
    ensures RunOn(AfterStart(t1, defaults), Status(None, None), t2, defaults).0 == Ok(())
  {
    AfterStartLoads(t1, defaults);
    StatusNeedsPending(AfterStart(t1, defaults), None, None, t2, defaults);
  }

  /** `stop_tracking`: after a start and a stop, both a status and a second stop fail. */
  lemma StopTracking(t1: Timestamp, t2: Timestamp, t3: Timestamp, defaults: Defaults)
    ensures RunOn(AfterStop(t1, t2, defaults), Status(None, None), t3, defaults).0.Err?
    ensures RunOn(AfterStop(t1, t2, defaults), Subcommand.Stop, t3, defaults).0 == Err(New(NothingTracked))
  {
    AfterStopLoads(t1, t2, defaults);
    StatusNeedsPending(AfterStop(t1, t2, defaults), None, None, t3, defaults);
    StopWhenIdle(AfterStop(t1, t2, defaults), t3, defaults);
  }

  /**
   * `resume_after_stop`: resuming with no history fails and stores
   * nothing; after a start and a stop the status fails, a resume succeeds
   * and tracks `Foo` again, and the status then succeeds.
   */
  lemma ResumeAfterStop(t0: Timestamp, t1: Timestamp, t2: Timestamp, t3: Timestamp, t4: Timestamp, t5: Timestamp, defaults: Defaults)
    ensures RunOn(None, Resume, t0, defaults) == (Err(New(NoLatestEntry)), None)
    ensures RunOn(AfterStop(t1, t2, defaults), Status(None, None), t3, defaults).0.Err?
    ensures RunOn(AfterStop(t1, t2, defaults), Resume, t4, defaults).0 == Ok(())
    ensures StoredLog(AfterStop(t1, t2, defaults), Resume, t4, defaults) ==
              Ok(LogState(Some(PendingLog("Foo", t4)), [LogEntry("Foo", t1, t2)]))
    ensures RunOn(RunOn(AfterStop(t1, t2, defaults), Resume, t4, defaults).1, Status(None, None), t5, defaults).0 == Ok(())
  {
    ResumeOutcome(None, t0, defaults);
    AfterStopLoads(t1, t2, defaults);
    var stopped := AfterStop(t1, t2, defaults);
    StatusNeedsPending(stopped, None, None, t3, defaults);
    ResumeOutcome(stopped, t4, defaults);
    StatusNeedsPending(RunOn(stopped, Resume, t4, defaults).1, None, None, t5, defaults);
  }
}
