/** The mutable session object of `Headless/Models/RunningSession.cs`, the
  * revision the gRPC controller works with: the timer predicates read its
  * fields, joining users and saves update them, and the startup parameters can
  * be regenerated from the live world. */
module Models {
  import opened Wrappers
  import opened Engine
  import SessionRecord
  import WorldExtensions

  /** What `Userspace.SaveWorld` did: it returned the saved record's URL, or
    * it threw. */
  datatype SaveOutcome = Saved(url: string) | SaveThrew

  class RunningSession {
    /** `StartInfo`; the object is updated in place, here by reassignment. */
    var startInfo: StartupParameters
    const instance: World
    const cancellation: SessionRecord.Cancellation
    var idleBeganAt: Option<Time>
    var lastSavedAt: Option<Time>
    var lastUserCount: int
    /** The intervals, in ticks; callers may set them. */
    var autosaveInterval: int
    var autoRecover: bool
    var idleRestartInterval: int
    var forceRestartInterval: int
    /** The id of the last non-local user to join. */
    var lastJoinedUserId: Option<string>
    /** `_saveLock.CurrentCount == 0`: some caller holds the save lock. */
    var isWorldSaving: bool

    constructor (startInfo: StartupParameters, instance: World, cancellation: SessionRecord.Cancellation)
      ensures this.startInfo == startInfo && this.instance == instance && this.cancellation == cancellation
      ensures autosaveInterval == FromSeconds(startInfo.autoSaveInterval) && autoRecover == startInfo.autoRecover
      ensures idleRestartInterval == FromSeconds(startInfo.idleRestartInterval)
      ensures forceRestartInterval == FromSeconds(startInfo.forcedRestartInterval)
      ensures idleBeganAt.None? && lastSavedAt.None? && lastJoinedUserId.None? && lastUserCount == 0 && !isWorldSaving
    {
      this.startInfo := startInfo;
      this.instance := instance;
      this.cancellation := cancellation;
      autosaveInterval := FromSeconds(startInfo.autoSaveInterval);
      autoRecover := startInfo.autoRecover;
      idleRestartInterval := FromSeconds(startInfo.idleRestartInterval);
      forceRestartInterval := FromSeconds(startInfo.forcedRestartInterval);
      idleBeganAt := None;
      lastSavedAt := None;
      lastUserCount := 0;
      lastJoinedUserId := None;
      isWorldSaving := false;
    }

    function StartedAt(): Time {
      instance.sessionBeginTime
    }

    function TimeRunning(now: Time): int {
      now - StartedAt()
    }

    function TimeSpentIdle(now: Time): int
      reads this
    {
      if idleBeganAt.None? then 0 else now - idleBeganAt.value
    }

    predicate HasForcedRestartIntervalElapsed(now: Time)
      reads this
    {
      forceRestartInterval > 0 && TimeRunning(now) > forceRestartInterval
    }

    /** Measured from the last save, or from the session start before the first. */
    predicate HasAutosaveIntervalElapsed(now: Time)
      reads this
    {
      autosaveInterval > 0 && now - lastSavedAt.GetOr(StartedAt()) > autosaveInterval
    }

    predicate HasIdleTimeElapsed(now: Time)
      reads this
    {
      idleRestartInterval > 0 && TimeSpentIdle(now) > idleRestartInterval
    }

    /** Users have been in the world since it was last saved: more than the
      * host is present, or a user joined and the world went idle after the
      * last save (a missing time counts as `DateTimeOffset.MinValue`). */
    predicate IsDirty()
      reads this, instance
    {
      instance.userCount > 1 || (lastJoinedUserId.Some? && idleBeganAt.GetOr(MinTime) > lastSavedAt.GetOr(MinTime))
    }

    /** The `UserJoined` handler: the local user is not recorded. */
    method OnUserJoined(user: User)
      modifies this`lastJoinedUserId
      ensures user.isLocal ==> lastJoinedUserId == old(lastJoinedUserId)
      ensures !user.isLocal ==> lastJoinedUserId == user.userId
    {
      if user.isLocal {
        return;
      }
      lastJoinedUserId := user.userId;
    }

    /** Admits the user in the world and remembers it in the start parameters,
      * so that a regenerated start admits it again. */
    method AllowUserToJoin(userId: string)
      modifies instance`joinAllowedUserIds, this`startInfo
      ensures instance.joinAllowedUserIds == old(instance.joinAllowedUserIds) + [userId]
      ensures startInfo == old(startInfo).(joinAllowedUserIds := old(startInfo.joinAllowedUserIds) + [userId])
    {
      instance.AllowUserToJoin(userId);
      startInfo := startInfo.(joinAllowedUserIds := startInfo.joinAllowedUserIds + [userId]);
    }

    /** Start parameters that reopen the session as it is now: listing fields
      * from the live world's session info, the source, roles and invite lists
      * from the original start parameters, and the intervals in seconds. */
    function GenerateStartupParameters(): (r: StartupParameters)
      reads this, instance
      ensures r.isEnabled && r.saveAsOwner.None?
      ensures r.customSessionId == startInfo.customSessionId
      ensures r.loadWorldUrl == startInfo.loadWorldUrl && r.loadWorldPresetName == startInfo.loadWorldPresetName
      ensures r.autoInviteUsernames == startInfo.autoInviteUsernames
      ensures r.inviteRequestHandlerUsernames == startInfo.inviteRequestHandlerUsernames
      ensures r.joinAllowedUserIds == startInfo.joinAllowedUserIds
      ensures r.awayKickMinutes == if instance.awayKickEnabled then instance.awayKickMinutes else -1
    {
      StartupParameters(
        isEnabled := true,
        sessionName := instance.name,
        customSessionId := startInfo.customSessionId,
        description := instance.description,
        maxUsers := instance.maxUsers,
        accessLevel := instance.accessLevel,
        useCustomJoinVerifier := instance.useCustomJoinVerifier,
        hideFromPublicListing := Some(instance.hideFromListing),
        tags := Some(instance.tags),
        mobileFriendly := instance.mobileFriendly,
        loadWorldUrl := startInfo.loadWorldUrl,
        loadWorldPresetName := startInfo.loadWorldPresetName,
        overrideCorrespondingWorldId := startInfo.overrideCorrespondingWorldId,
        forcePort := startInfo.forcePort,
        keepOriginalRoles := startInfo.keepOriginalRoles,
        defaultUserRoles := startInfo.defaultUserRoles,
        roleCloudVariable := instance.roleCloudVariable,
        allowUserCloudVariable := instance.allowUserCloudVariable,
        denyUserCloudVariable := instance.denyUserCloudVariable,
        requiredUserJoinCloudVariable := instance.requiredUserJoinCloudVariable,
        requiredUserJoinCloudVariableDenyMessage := instance.requiredUserJoinCloudVariableDenyMessage,
        awayKickMinutes := if instance.awayKickEnabled then instance.awayKickMinutes else -1,
        parentSessionIds := Some(instance.parentSessionIds),
        autoInviteUsernames := startInfo.autoInviteUsernames,
        inviteRequestHandlerUsernames := startInfo.inviteRequestHandlerUsernames,
        autoInviteMessage := startInfo.autoInviteMessage,
        saveAsOwner := None,
        autoRecover := autoRecover,
        idleRestartInterval := TotalSeconds(idleRestartInterval),
        forcedRestartInterval := TotalSeconds(forceRestartInterval),
        saveOnExit := instance.saveOnExit,
        autoSaveInterval := TotalSeconds(autosaveInterval),
        autoSleep := !instance.forceFullUpdateCycle,
        waitForLogin := startInfo.waitForLogin,
        joinAllowedUserIds := startInfo.joinAllowedUserIds)
    }

    /** `SaveWorld`: refused (false, nothing changed) unless the world should
      * be saved and nobody holds the save lock. Otherwise the lock is taken,
      * the record is made saveable by this account (a world without a record
      * gets a new one owned by the current user; a record owned by someone
      * the account cannot act for is taken over under a fresh id), the world
      * is saved, and the lock is released on every path. Only a save that
      * completes moves `LastSavedAt` and the start URL. */
    method SaveWorld(shouldSave: bool, currentUserId: Option<string>, hasPotentialAccess: Option<string> -> bool,
                     newRecordId: string, outcome: SaveOutcome, now: Time) returns (ok: bool)
      modifies this`lastSavedAt, this`startInfo, this`isWorldSaving, instance`correspondingRecord
      ensures isWorldSaving == old(isWorldSaving)
      ensures ok <==> shouldSave && !old(isWorldSaving) && outcome.Saved?
      ensures !(shouldSave && !old(isWorldSaving)) ==>
        lastSavedAt == old(lastSavedAt) && startInfo == old(startInfo) && instance.correspondingRecord == old(instance.correspondingRecord)
      ensures shouldSave && !old(isWorldSaving) ==>
        instance.correspondingRecord == Some(SaveableRecord(old(instance.correspondingRecord), currentUserId, hasPotentialAccess, newRecordId))
      ensures ok ==> lastSavedAt == Some(now) && startInfo == old(startInfo).(loadWorldUrl := Some(outcome.url))
      ensures !ok ==> lastSavedAt == old(lastSavedAt) && startInfo == old(startInfo)
      ensures ok && instance.userCount <= 1 && (idleBeganAt.None? || idleBeganAt.value <= now) ==> !IsDirty()
    {
      if !(shouldSave && !isWorldSaving) {
        return false;
      }
      isWorldSaving := true;
      var record := instance.correspondingRecord;
      if record.None? {
        // a world opened from a preset
        instance.correspondingRecord := Some(WorldRecord(currentUserId, newRecordId));
      } else if !hasPotentialAccess(record.value.ownerId) {
        // a public world this account may not save over
        instance.correspondingRecord := Some(record.value.(ownerId := currentUserId, recordId := newRecordId));
      }
      match outcome {
        case SaveThrew =>
          ok := false;
        case Saved(url) =>
          lastSavedAt := Some(now);
          startInfo := startInfo.(loadWorldUrl := Some(url));
          ok := true;
      }
      isWorldSaving := false;
    }
  }

  /** The record a save writes under: a new one for a world without a record,
    * the account's own copy under a fresh id for a record it cannot access,
    * and the record itself otherwise. */
  function SaveableRecord(record: Option<WorldRecord>, currentUserId: Option<string>,
                          hasPotentialAccess: Option<string> -> bool, newRecordId: string): (r: WorldRecord)
    ensures record.None? ==> r == WorldRecord(currentUserId, newRecordId)
    ensures record.Some? && hasPotentialAccess(record.value.ownerId) ==> r == record.value
    ensures record.Some? && !hasPotentialAccess(record.value.ownerId) ==> r.ownerId == currentUserId && r.recordId == newRecordId
    ensures hasPotentialAccess(r.ownerId) || r.ownerId == currentUserId
  {
    if record.None? then WorldRecord(currentUserId, newRecordId)
    else if !hasPotentialAccess(record.value.ownerId) then record.value.(ownerId := currentUserId, recordId := newRecordId)
    else record.value
  }

  /** Each predicate is off when its interval is not positive. */
  lemma DisabledIntervalsNeverElapse(s: RunningSession, now: Time)
    ensures s.autosaveInterval <= 0 ==> !s.HasAutosaveIntervalElapsed(now)
    ensures s.idleRestartInterval <= 0 ==> !s.HasIdleTimeElapsed(now)
    ensures s.forceRestartInterval <= 0 ==> !s.HasForcedRestartIntervalElapsed(now)
    ensures s.idleBeganAt.None? ==> !s.HasIdleTimeElapsed(now)
  {
  }

  /** The two revisions agree: with the same intervals, a record whose save
    * time is this object's last save (or its start before the first save)
    * and whose idle time is this object's is due exactly when this object is. */
  lemma AgreesWithRecord(s: RunningSession, r: SessionRecord.RunningSession, now: Time)
    requires r.world == s.instance
    requires r.AutosaveInterval() == s.autosaveInterval && r.IdleRestartInterval() == s.idleRestartInterval
    requires r.ForceRestartInterval() == s.forceRestartInterval
    requires r.lastSaveTime == s.lastSavedAt.GetOr(s.StartedAt()) && r.idleBeginTime == s.idleBeganAt
    ensures r.HasAutosaveIntervalElapsed(now) == s.HasAutosaveIntervalElapsed(now)
    ensures r.HasIdleTimeElapsed(now) == s.HasIdleTimeElapsed(now)
    ensures r.HasForcedRestartIntervalElapsed(now) == s.HasForcedRestartIntervalElapsed(now)
  {
  }

  /** A world that went idle but had no one join since its last save is not
    * dirty while only the host is present; one that had a user join and went
    * idle after its save is. */
  lemma DirtyCases(s: RunningSession)
    ensures s.instance.userCount > 1 ==> s.IsDirty()
    ensures s.instance.userCount <= 1 && s.lastJoinedUserId.None? ==> !s.IsDirty()
    ensures s.lastJoinedUserId.Some? && s.idleBeganAt.Some? && s.lastSavedAt.None? && s.idleBeganAt.value > MinTime ==> s.IsDirty()
  {
  }

  /** Intervals set from whole seconds come back as those seconds in the
    * regenerated parameters. */
  lemma RegeneratedIntervals(s: RunningSession, autoSave: int, idle: int, forced: int)
    requires s.autosaveInterval == FromSeconds(autoSave) && s.idleRestartInterval == FromSeconds(idle)
    requires s.forceRestartInterval == FromSeconds(forced)
    ensures s.GenerateStartupParameters().autoSaveInterval == autoSave
    ensures s.GenerateStartupParameters().idleRestartInterval == idle
    ensures s.GenerateStartupParameters().forcedRestartInterval == forced
  {
    TotalSecondsFromSeconds(autoSave);
    TotalSecondsFromSeconds(idle);
    TotalSecondsFromSeconds(forced);
  }

  /** Away-kick survives regeneration: applying the regenerated minutes gives
    * the world its away-kick setting back, as long as an enabled setting has
    * a positive number of minutes (which is how the parameters set it). */
  lemma RegeneratedAwayKick(s: RunningSession)
    requires s.instance.awayKickEnabled ==> s.instance.awayKickMinutes > 0
    requires !s.instance.awayKickEnabled ==> s.instance.awayKickMinutes == -1
    ensures WorldExtensions.AwayKick(s.GenerateStartupParameters().awayKickMinutes) ==
      (s.instance.awayKickEnabled, s.instance.awayKickMinutes)
  {
  }
}
