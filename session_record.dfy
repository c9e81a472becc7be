/** The immutable session record of `Headless/Services/RunningSession.cs`, the
  * revision the world service keeps in its registry. Changes are made by
  * copying it with some fields replaced; the three "has elapsed" predicates
  * are functions of the record, the start parameters and the current time. */
module SessionRecord {
  import opened Wrappers
  import opened Engine

  /** `CancellationTokenSource`: whether cancellation has been requested. */
  class Cancellation {
    var requested: bool

    constructor ()
      ensures !requested
    {
      requested := false;
    }

    method Cancel()
      modifies this
      ensures requested
    {
      requested := true;
    }
  }

  datatype RunningSession = RunningSession(
    startInfo: StartupParameters,
    world: World,
    cancellation: Cancellation,
    idleBeginTime: Option<Time>,
    lastSaveTime: Time,
    lastUserCount: int)
  {
    /** The intervals are whole seconds of the start parameters, in ticks. */
    function AutosaveInterval(): int { FromSeconds(startInfo.autoSaveInterval) }
    function IdleRestartInterval(): int { FromSeconds(startInfo.idleRestartInterval) }
    function ForceRestartInterval(): int { FromSeconds(startInfo.forcedRestartInterval) }

    function TimeRunning(now: Time): int { now - world.sessionBeginTime }
    function TimeSinceLastSave(now: Time): int { now - lastSaveTime }
    function TimeSpentIdle(now: Time): int {
      if idleBeginTime.None? then 0 else now - idleBeginTime.value
    }

    predicate HasForcedRestartIntervalElapsed(now: Time) {
      ForceRestartInterval() > 0 && TimeRunning(now) > ForceRestartInterval()
    }

    predicate HasAutosaveIntervalElapsed(now: Time) {
      AutosaveInterval() > 0 && TimeSinceLastSave(now) > AutosaveInterval()
    }

    predicate HasIdleTimeElapsed(now: Time) {
      IdleRestartInterval() > 0 && TimeSpentIdle(now) > IdleRestartInterval()
    }
  }

  /** The record constructor: a `LastSaveTime` left at its default
    * (`DateTimeOffset.MinValue`) becomes the construction time. */
  function NewSession(startInfo: StartupParameters, world: World, cancellation: Cancellation,
                      idleBeginTime: Option<Time>, lastSaveTime: Time, lastUserCount: int, now: Time): (r: RunningSession)
    ensures r.startInfo == startInfo && r.world == world && r.cancellation == cancellation
    ensures r.idleBeginTime == idleBeginTime && r.lastUserCount == lastUserCount
    ensures lastSaveTime != MinTime ==> r.lastSaveTime == lastSaveTime
  {
    RunningSession(startInfo, world, cancellation, idleBeginTime, if lastSaveTime == MinTime then now else lastSaveTime, lastUserCount)
  }

  /** A record built without a save time is not due for an autosave at the
    * moment it is built. */
  lemma NewSessionNotDue(startInfo: StartupParameters, world: World, cancellation: Cancellation,
                         idleBeginTime: Option<Time>, lastUserCount: int, now: Time)
    ensures NewSession(startInfo, world, cancellation, idleBeginTime, MinTime, lastUserCount, now).lastSaveTime == now
    ensures !NewSession(startInfo, world, cancellation, idleBeginTime, MinTime, lastUserCount, now).HasAutosaveIntervalElapsed(now)
  {
  }

  /** Each predicate in terms of the configured seconds: a non-positive
    * setting disables it, and otherwise it holds once strictly more than the
    * interval has passed since its reference point. */
  lemma ElapsedInSeconds(r: RunningSession, now: Time)
    ensures r.HasAutosaveIntervalElapsed(now) <==>
      r.startInfo.autoSaveInterval > 0 && now - r.lastSaveTime > r.startInfo.autoSaveInterval * TicksPerSecond
    ensures r.HasIdleTimeElapsed(now) <==>
      r.startInfo.idleRestartInterval > 0 && r.idleBeginTime.Some?
      && now - r.idleBeginTime.value > r.startInfo.idleRestartInterval * TicksPerSecond
    ensures r.HasForcedRestartIntervalElapsed(now) <==>
      r.startInfo.forcedRestartInterval > 0 && now - r.world.sessionBeginTime > r.startInfo.forcedRestartInterval * TicksPerSecond
  {
  }

  /** Once elapsed, a predicate stays elapsed as time goes on. */
  lemma ElapsedIsMonotonic(r: RunningSession, now: Time, later: Time)
    requires now <= later
    ensures r.HasAutosaveIntervalElapsed(now) ==> r.HasAutosaveIntervalElapsed(later)
    ensures r.HasIdleTimeElapsed(now) ==> r.HasIdleTimeElapsed(later)
    ensures r.HasForcedRestartIntervalElapsed(now) ==> r.HasForcedRestartIntervalElapsed(later)
  {
  }

  /** Recording a save at `now` makes the autosave not due at `now`; a record
    * that is not idle is never due for an idle restart. */
  lemma ResetsClearElapsed(r: RunningSession, now: Time)
    ensures !r.(lastSaveTime := now).HasAutosaveIntervalElapsed(now)
    ensures !r.(idleBeginTime := None).HasIdleTimeElapsed(now)
    ensures !r.(idleBeginTime := Some(now)).HasIdleTimeElapsed(now)
  {
  }
}
