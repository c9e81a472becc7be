/** The session registry and the per-session supervisor of
  * `Headless/Services/WorldService.cs`.
  *
  * The registry maps session ids to session records. Starting a world
  * registers it; stopping removes it and cancels its supervisor. The
  * supervisor wakes once a second and, in this order, autosaves, tracks
  * idleness, checks the idle-restart and forced-restart intervals, and writes
  * its updated record back. On leaving its loop it removes the session, then
  * either restarts it or stops it.
  *
  * Concurrency is replaced by explicit inputs. Each supervisor tick names the
  * events that happened while it waited: a crash report, a stop request, the
  * world being destroyed elsewhere. It also gives the clock and the world's
  * state as the tick body reads them. The supervisor is specified by the pure
  * state machine `Step`/`RunTicks`, and the method `SessionHandler` is proved
  * to follow it. */
module Sessions {
  import opened Wrappers
  import opened Text
  import opened Engine
  import opened SessionRecord
  import WorldExtensions

  // ---- custom session ids ------------------------------------------------

  /** Prepends the `S-` prefix unless it is there already. */
  function WithPrefix(id: string): (r: string)
    ensures StartsWith(r, "S-")
    ensures StartsWith(id, "S-") ==> r == id
    ensures !StartsWith(id, "S-") ==> r == "S-" + id
  {
    if StartsWith(id, "S-") then id else "S-" + id
  }

  /** `SanitizeSessionID`. A blank id, an id that is not valid once prefixed,
    * and an id owned by someone other than the logged-in user all become
    * `None`: the engine then picks the session id itself. */
  function SanitizeSessionId(sessionId: Option<string>, cloud: Cloud): (r: Option<string>)
    ensures IsNullOrWhiteSpace(sessionId) ==> r.None?
    ensures r.Some? ==> sessionId.Some? && r.value == WithPrefix(sessionId.value)
    ensures r.Some? ==> cloud.isValidSessionId(r.value) && cloud.customSessionIdOwner(r.value) == cloud.currentUserId
    ensures !IsNullOrWhiteSpace(sessionId) && cloud.isValidSessionId(WithPrefix(sessionId.value))
            && cloud.customSessionIdOwner(WithPrefix(sessionId.value)) == cloud.currentUserId
            ==> r == Some(WithPrefix(sessionId.value))
  {
    if IsNullOrWhiteSpace(sessionId) then None
    else
      var id := WithPrefix(sessionId.value);
      if !cloud.isValidSessionId(id) then None
      else if cloud.customSessionIdOwner(id) != cloud.currentUserId then None
      else Some(id)
  }

  /** Sanitizing twice is sanitizing once, so a restart, which starts again
    * from the already sanitized parameters, asks for the same custom id. */
  lemma SanitizeIdempotent(sessionId: Option<string>, cloud: Cloud)
    ensures SanitizeSessionId(SanitizeSessionId(sessionId, cloud), cloud) == SanitizeSessionId(sessionId, cloud)
  {
    var r := SanitizeSessionId(sessionId, cloud);
    if r.Some? {
      assert r.value[0] == 'S' && !IsWhiteSpace(r.value[0]);
      assert !IsNullOrWhiteSpace(r);
    }
  }

  // ---- the supervisor as a state machine ---------------------------------

  /** What can happen while the supervisor waits out its second. */
  datatype Event =
    | WorldFailed(failedSessionId: string)  // the engine reports a crashed world
    | StopRequested                         // `StopWorldAsync` for this session
    | WorldDestroyed                        // the world is destroyed elsewhere

  /** One pass of the loop: the events during the wait, then the clock, the
    * user count, `Userspace.CanSave`, the record's `IsSynced` and whether the
    * application is exiting or shutting down, as the tick body reads them.
    * The clock is read twice: `now` for the autosave check, and `afterSave`
    * once `SaveWorldAuto` has returned, for the save time, the idle start and
    * the two restart checks. */
  datatype Tick = Tick(events: seq<Event>, now: Time, afterSave: Time, userCount: int, canSave: bool, isSynced: bool,
                       shuttingDown: bool)

  /** Why the loop left by restarting. */
  datatype RestartReason = IdleTimeout | ForcedInterval

  /** Everything the supervisor's behaviour depends on: its current record,
    * the `restart` flag, whether its cancellation was requested, whether the
    * world is destroyed, the registry, the times at which an autosave was
    * started, and why the loop broke for a restart. */
  datatype Supervisor = Supervisor(
    session: RunningSession,
    restart: bool,
    cancelled: bool,
    destroyed: bool,
    registry: map<string, RunningSession>,
    autosaves: seq<Time>,
    reason: Option<RestartReason>)
  {
    function Id(): string { session.world.sessionId }

    /** The loop condition fails: cancelled, or the world is destroyed. */
    predicate Exited() { cancelled || destroyed }
  }

  /** The supervisor when its handler starts. */
  function Initial(session: RunningSession, registry: map<string, RunningSession>, cancelled: bool, destroyed: bool): Supervisor {
    Supervisor(session, false, cancelled, destroyed, registry, [], None)
  }

  /** `MarkAutoRecoverRestart`: ignored once cancelled and for other worlds;
    * otherwise the session restarts on exit if it auto-recovers. */
  function OnWorldFailed(s: Supervisor, failedSessionId: string): (r: Supervisor)
    ensures r == s.(restart := r.restart)
    ensures r.restart <==> s.restart || (!s.cancelled && failedSessionId == s.Id() && s.session.startInfo.autoRecover)
  {
    if s.cancelled || s.Id() != failedSessionId then s
    else if s.session.startInfo.autoRecover then s.(restart := true)
    else s
  }

  /** `StopWorldAsync(id)` as the supervisor sees it: a registered session is
    * removed and cancelled; an unknown id changes nothing. */
  function OnStop(s: Supervisor): (r: Supervisor)
    ensures s.Id() in s.registry ==> r == s.(registry := s.registry - {s.Id()}, cancelled := true)
    ensures s.Id() !in s.registry ==> r == s
  {
    if s.Id() in s.registry then s.(registry := s.registry - {s.Id()}, cancelled := true) else s
  }

  /** One event: it never touches the session record, the autosaves or the
    * restart reason. */
  function ApplyEvent(s: Supervisor, e: Event): (r: Supervisor)
    ensures r.session == s.session && r.autosaves == s.autosaves && r.reason == s.reason
    ensures e.WorldDestroyed? ==> r == s.(destroyed := true)
  {
    match e
    case WorldFailed(failed) => OnWorldFailed(s, failed)
    case StopRequested => OnStop(s)
    case WorldDestroyed => s.(destroyed := true)
  }

  function ApplyEvents(s: Supervisor, es: seq<Event>): (r: Supervisor)
    ensures r.session == s.session && r.autosaves == s.autosaves && r.reason == s.reason
  {
    if es == [] then s else ApplyEvent(ApplyEvents(s, es[..|es| - 1]), es[|es| - 1])
  }

  /** The new `IdleBeginTime`: a drop to one user from more starts the idle
    * period now, more than one user ends it, anything else keeps it. */
  function IdleBegin(userCount: int, lastUserCount: int, current: Option<Time>, now: Time): (r: Option<Time>)
    ensures userCount == 1 && lastUserCount > 1 ==> r == Some(now)
    ensures userCount > 1 ==> r.None?
    ensures userCount < 1 || (userCount == 1 && lastUserCount <= 1) ==> r == current
  {
    if userCount == 1 && lastUserCount > 1 then Some(now)
    else if userCount > 1 then None
    else current
  }

  /** `ConcurrentDictionary.TryUpdate`: replaces the entry only while it still
    * equals `comparison`. */
  function TryUpdate(m: map<string, RunningSession>, key: string, value: RunningSession, comparison: RunningSession): (r: map<string, RunningSession>)
    ensures key in m && m[key] == comparison ==> r == m[key := value]
    ensures !(key in m && m[key] == comparison) ==> r == m
  {
    if key in m && m[key] == comparison then m[key := value] else m
  }

  /** The record after the autosave check: the save time becomes the clock
    * after the save whenever the interval had elapsed at `now` and the world
    * can be saved. */
  function AfterAutosave(r: RunningSession, t: Tick): (a: RunningSession)
    ensures a == r.(lastSaveTime := a.lastSaveTime)
    ensures a.lastSaveTime != r.lastSaveTime ==> a.lastSaveTime == t.afterSave && t.canSave
    ensures !r.HasAutosaveIntervalElapsed(t.now) ==> a == r
  {
    if r.HasAutosaveIntervalElapsed(t.now) && t.canSave then r.(lastSaveTime := t.afterSave) else r
  }

  /** Whether the tick actually starts a save: due, synced and not shutting down. */
  predicate SavesAt(r: RunningSession, t: Tick) {
    r.HasAutosaveIntervalElapsed(t.now) && t.canSave && t.isSynced && !t.shuttingDown
  }

  /** The record after the idle switch. */
  function AfterIdleSwitch(r: RunningSession, t: Tick): (a: RunningSession)
    ensures a == r.(idleBeginTime := a.idleBeginTime)
    ensures a.idleBeginTime != r.idleBeginTime ==> a.idleBeginTime.None? || a.idleBeginTime.value == t.afterSave
  {
    r.(idleBeginTime := IdleBegin(t.userCount, r.lastUserCount, r.idleBeginTime, t.afterSave))
  }

  /** The body of the loop after the wait. */
  function TickBody(s: Supervisor, t: Tick): Supervisor {
    var original := s.session;
    var saves := if SavesAt(original, t) then s.autosaves + [t.now] else s.autosaves;
    var r := AfterIdleSwitch(AfterAutosave(original, t), t);
    if r.HasIdleTimeElapsed(t.afterSave) then
      s.(session := r, autosaves := saves, restart := true, destroyed := true, reason := Some(IdleTimeout))
    else if r.HasForcedRestartIntervalElapsed(t.afterSave) then
      s.(session := r, autosaves := saves, restart := true, destroyed := true, reason := Some(ForcedInterval))
    else
      var w := r.(lastUserCount := t.userCount);
      s.(session := w, autosaves := saves, registry := TryUpdate(s.registry, s.Id(), w, original))
  }

  /** One pass of the loop: the wait, cut short by cancellation, then the body. */
  function Step(s: Supervisor, t: Tick): Supervisor {
    var w := ApplyEvents(s, t.events);
    if w.cancelled then w else TickBody(w, t)
  }

  /** The supervisor after a run of ticks; once it has exited, later ticks do
    * not happen. */
  function RunTicks(s: Supervisor, ticks: seq<Tick>): Supervisor {
    if ticks == [] then s
    else
      var p := RunTicks(s, ticks[..|ticks| - 1]);
      if p.Exited() then p else Step(p, ticks[|ticks| - 1])
  }

  /** Once the loop has exited, further ticks change nothing. */
  lemma {:induction false} RunTicksAfterExit(s: Supervisor, ticks: seq<Tick>, k: nat)
    requires k <= |ticks| && RunTicks(s, ticks[..k]).Exited()
    ensures RunTicks(s, ticks) == RunTicks(s, ticks[..k])
    decreases |ticks| - k
  {
    if k < |ticks| {
      assert ticks[..k + 1][..k] == ticks[..k];
      RunTicksAfterExit(s, ticks, k + 1);
    } else {
      assert ticks[..k] == ticks;
    }
  }

  // ---- what one tick guarantees ------------------------------------------

  /** Idle tracking, autosave and write-back: a tick that does not exit
    * carries the idle switch, the autosave reset (made even when the save is
    * skipped) and the observed user count, and writes its record back only
    * if the registry still holds the record the tick started from. */
  lemma TickThatContinues(s: Supervisor, t: Tick)
    requires !s.Exited()
    requires var w := ApplyEvents(s, t.events); !w.cancelled
    requires var w := ApplyEvents(s, t.events);
      var r := AfterIdleSwitch(AfterAutosave(w.session, t), t);
      !r.HasIdleTimeElapsed(t.afterSave) && !r.HasForcedRestartIntervalElapsed(t.afterSave)
    ensures var w := ApplyEvents(s, t.events); var n := Step(s, t);
      n.session.idleBeginTime == IdleBegin(t.userCount, s.session.lastUserCount, s.session.idleBeginTime, t.afterSave)
      && n.session.lastUserCount == t.userCount
      && (s.session.HasAutosaveIntervalElapsed(t.now) && t.canSave ==> n.session.lastSaveTime == t.afterSave)
      && (!(s.session.HasAutosaveIntervalElapsed(t.now) && t.canSave) ==> n.session.lastSaveTime == s.session.lastSaveTime)
      && (n.autosaves == s.autosaves + [t.now] <==> SavesAt(s.session, t))
      && (w.Id() in w.registry && w.registry[w.Id()] == s.session ==> n.registry == w.registry[w.Id() := n.session])
      && (!(w.Id() in w.registry && w.registry[w.Id()] == s.session) ==> n.registry == w.registry)
      && n.restart == w.restart && n.destroyed == w.destroyed
  {
  }

  /** The idle check comes first, then the forced check; either one makes the
    * session restart, destroys the world and leaves the registry entry as it
    * was before the tick's write-back. */
  lemma TickThatRestarts(s: Supervisor, t: Tick)
    requires !s.Exited()
    requires var w := ApplyEvents(s, t.events); !w.cancelled
    ensures var w := ApplyEvents(s, t.events); var r := AfterIdleSwitch(AfterAutosave(w.session, t), t); var n := Step(s, t);
      (r.HasIdleTimeElapsed(t.afterSave) ==> n.reason == Some(IdleTimeout))
      && (!r.HasIdleTimeElapsed(t.afterSave) && r.HasForcedRestartIntervalElapsed(t.afterSave) ==> n.reason == Some(ForcedInterval))
      && (r.HasIdleTimeElapsed(t.afterSave) || r.HasForcedRestartIntervalElapsed(t.afterSave) ==>
            n.restart && n.destroyed && n.Exited() && n.registry == w.registry && n.session == r)
  {
  }

  /** The wait, on `restart`: only a crash report for this session on an
    * auto-recovering session sets it; such a report with no stop request
    * beside it always does. */
  lemma {:induction false} EventsRestart(s: Supervisor, es: seq<Event>)
    ensures ApplyEvents(s, es).restart ==>
      s.restart || (s.session.startInfo.autoRecover && WorldFailed(s.Id()) in es)
    ensures !s.cancelled && s.session.startInfo.autoRecover && WorldFailed(s.Id()) in es && StopRequested !in es ==>
      ApplyEvents(s, es).restart && !ApplyEvents(s, es).cancelled
  {
    if es != [] {
      var init := es[..|es| - 1];
      EventsRestart(s, init);
      assert es == init + [es[|es| - 1]];
      if StopRequested !in es {
        EventsWithoutStop(s, init);
      }
    }
  }

  /** Without a stop request, the wait does not cancel. */
  lemma {:induction false} EventsWithoutStop(s: Supervisor, es: seq<Event>)
    requires StopRequested !in es
    ensures ApplyEvents(s, es).cancelled == s.cancelled
  {
    if es != [] {
      var init := es[..|es| - 1];
      assert es == init + [es[|es| - 1]];
      EventsWithoutStop(s, init);
    }
  }

  /** The wait, on cancellation: only a stop request for a registered
    * session cancels, and it removes the session from the registry. */
  lemma {:induction false} EventsCancel(s: Supervisor, es: seq<Event>)
    ensures ApplyEvents(s, es).cancelled <==>
      s.cancelled || exists i :: 0 <= i < |es| && es[i] == StopRequested && ApplyEvents(s, es[..i]).Id() in ApplyEvents(s, es[..i]).registry
    ensures ApplyEvents(s, es).registry == s.registry || ApplyEvents(s, es).registry == s.registry - {s.Id()}
    ensures ApplyEvents(s, es).cancelled && !s.cancelled ==> s.Id() !in ApplyEvents(s, es).registry
  {
    if es != [] {
      var init := es[..|es| - 1];
      EventsCancel(s, init);
      assert forall i :: 0 <= i < |init| ==> init[i] == es[i] && init[..i] == es[..i];
    }
  }

  /** The wait, on the world: it is destroyed exactly by a destroy event. */
  lemma {:induction false} EventsDestroy(s: Supervisor, es: seq<Event>)
    ensures ApplyEvents(s, es).destroyed <==> s.destroyed || WorldDestroyed in es
  {
    if es != [] {
      var init := es[..|es| - 1];
      EventsDestroy(s, init);
      assert es == init + [es[|es| - 1]];
    }
  }

  // ---- leaving the loop --------------------------------------------------

  datatype HandlerOutcome =
    | StillRunning                             // the ticks ran out first
    | Restarting(startInfo: StartupParameters) // `StartWorldAsync` is called again with these
    | Stopped(saved: bool)                     // whether `SaveWorldAuto` ran before destroying

  /** The path taken on exit: restart exactly when not cancelled and a restart
    * was asked for; otherwise stop, saving if the world saves on exit and can
    * be saved. */
  function Outcome(s: Supervisor, saveOnExit: bool, canSave: bool): (o: HandlerOutcome)
    ensures o.StillRunning? <==> !s.Exited()
    ensures o.Restarting? <==> s.Exited() && !s.cancelled && s.restart
    ensures o.Restarting? ==> o.startInfo == s.session.startInfo
    ensures o.Stopped? ==> (o.saved <==> saveOnExit && canSave)
  {
    if !s.Exited() then StillRunning
    else if !s.cancelled && s.restart then Restarting(s.session.startInfo)
    else Stopped(saveOnExit && canSave)
  }

  /** A session stopped through `StopWorldAsync` never restarts, whatever
    * crashes were reported. */
  lemma StopMeansNoRestart(s: Supervisor, saveOnExit: bool, canSave: bool)
    requires s.cancelled
    ensures Outcome(s, saveOnExit, canSave).Stopped?
  {
  }

  // ---- the service -------------------------------------------------------

  /** How `GenerateStartSettings` and `Userspace.OpenWorld` ended. */
  datatype Opening = OpenThrew | OpenReturnedNull | Opened

  datatype StartOutcome =
    | Started(session: RunningSession)
    | NotStarted          // logged, `null` returned
    | WaitCancelled       // the state poll was cancelled: `TaskCanceledException`
    | DuplicateSessionId  // `InvalidOperationException`

  /** The state the world settles in: the first state other than
    * `Initializing` among the current one and the ones observed at each poll. */
  function FinalState(current: WorldState, polls: seq<WorldState>): (r: Option<WorldState>)
    ensures r != Some(Initializing)
    ensures r.None? ==> current == Initializing
    decreases |polls|
  {
    if current != Initializing then Some(current)
    else if polls == [] then None
    else FinalState(polls[0], polls[1..])
  }

  class WorldService {
    /** `_runningWorlds` */
    var runningWorlds: map<string, RunningSession>
    /** The engine's cloud interface. */
    const cloud: Cloud

    constructor (cloud: Cloud)
      ensures runningWorlds == map[] && this.cloud == cloud
    {
      runningWorlds := map[];
      this.cloud := cloud;
    }

    /** `GetSession` */
    function GetSession(id: string): (r: Option<RunningSession>)
      reads this
      ensures r.Some? <==> id in runningWorlds
      ensures r.Some? ==> r.value == runningWorlds[id]
    {
      if id !in runningWorlds then None else Some(runningWorlds[id])
    }

    /** `ListAll`: the registered sessions (the dictionary's order is not specified). */
    function ListAll(): (r: set<RunningSession>)
      reads this
      ensures forall id :: id in runningWorlds ==> runningWorlds[id] in r
      ensures forall s :: s in r ==> exists id :: id in runningWorlds && runningWorlds[id] == s
    {
      runningWorlds.Values
    }

    /** `StopWorldAsync`: an unknown id changes nothing; otherwise the entry is
      * removed first and its cancellation requested. Awaiting the supervisor
      * is `SessionHandler` running to its exit. */
    method StopWorld(sessionId: string)
      modifies this`runningWorlds, if sessionId in runningWorlds then {runningWorlds[sessionId].cancellation} else {}
      ensures sessionId !in old(runningWorlds) ==> runningWorlds == old(runningWorlds)
      ensures sessionId in old(runningWorlds) ==>
        runningWorlds == old(runningWorlds) - {sessionId} && old(runningWorlds)[sessionId].cancellation.requested
    {
      if sessionId !in runningWorlds {
        return;
      }
      var runningSession := runningWorlds[sessionId];
      runningWorlds := runningWorlds - {sessionId};
      runningSession.cancellation.Cancel();
    }

    /** The wait of `StartWorldAsync` while the world initialises: the state
      * is read again after each delay (`polls`); running out of polls is the
      * wait being cancelled. */
    static method AwaitStartup(world: World, polls: seq<WorldState>) returns (settled: Option<WorldState>)
      modifies world`state
      ensures settled == FinalState(old(world.state), polls)
      ensures settled.Some? ==> world.state == settled.value
    {
      var i := 0;
      while world.state == Initializing
        invariant 0 <= i <= |polls|
        invariant FinalState(old(world.state), polls) == FinalState(world.state, polls[i..])
        decreases |polls| - i
      {
        if i == |polls| {
          return None;
        }
        assert polls[i..][1..] == polls[i + 1..];
        world.state := polls[i];
        i := i + 1;
      }
      settled := Some(world.state);
    }

    /** `StartWorldAsync`. The custom id is sanitised; opening may throw or
      * return nothing; the world's state is polled (`polls` are the states
      * seen after each wait) until it leaves `Initializing`; a failed world is
      * not registered. A started world gets the parameters applied and is
      * registered under its session id, unless that id is taken. */
    method StartWorld(parameters: StartupParameters, opening: Opening, world: World, polls: seq<WorldState>, now: Time)
      returns (r: StartOutcome)
      modifies this`runningWorlds, world`state
      modifies world`name, world`tags, world`accessLevel, world`useCustomJoinVerifier, world`hideFromListing,
               world`maxUsers, world`mobileFriendly, world`description, world`forceFullUpdateCycle,
               world`saveOnExit, world`correspondingWorldId, world`awayKickEnabled, world`awayKickMinutes,
               world`roleCloudVariable, world`allowUserCloudVariable, world`denyUserCloudVariable,
               world`requiredUserJoinCloudVariable, world`requiredUserJoinCloudVariableDenyMessage,
               world`parentSessionIds, world`inviteRequestHandlers, world`defaultUserPermissions, world`joinAllowedUserIds
      ensures var p := parameters.(customSessionId := SanitizeSessionId(parameters.customSessionId, cloud));
        var settled := FinalState(old(world.state), polls);
        && (r.NotStarted? <==> opening != Opened || settled == Some(Failed))
        && (r.WaitCancelled? <==> opening == Opened && settled.None?)
        && (r.DuplicateSessionId? <==> opening == Opened && settled == Some(Running) && world.sessionId in old(runningWorlds))
        && (r.Started? <==> opening == Opened && settled == Some(Running) && world.sessionId !in old(runningWorlds))
        && (r.Started? ==>
              && r.session == NewSession(p, world, r.session.cancellation, None, MinTime, 0, now)
              && fresh(r.session.cancellation) && !r.session.cancellation.requested
              && runningWorlds == old(runningWorlds)[world.sessionId := r.session])
        && (!r.Started? ==> runningWorlds == old(runningWorlds))
        && (r.Started? || r.DuplicateSessionId? ==> WorldExtensions.ParametersApplied(world, p, cloud))
    {
      var p := parameters.(customSessionId := SanitizeSessionId(parameters.customSessionId, cloud));
      if opening != Opened {
        return NotStarted;
      }
      var settled := AwaitStartup(world, polls);
      if settled.None? {
        return WaitCancelled;
      }
      if settled.value == Failed {
        return NotStarted;
      }
      p := WorldExtensions.SetParameters(world, p, cloud);
      var sessionCancellation := new Cancellation();
      var session := NewSession(p, world, sessionCancellation, None, MinTime, 0, now);
      if world.sessionId in runningWorlds {
        return DuplicateSessionId;
      }
      runningWorlds := runningWorlds[world.sessionId := session];
      r := Started(session);
    }

    /** The registry entry under the session's id, if any, is a copy of it. */
    predicate Owns(session: RunningSession)
      reads this
    {
      var id := session.world.sessionId;
      id in runningWorlds ==> runningWorlds[id].cancellation == session.cancellation
    }

    /** The supervisor's state as the fields of the service, the world and the
      * cancellation hold it. */
    function Snapshot(session: RunningSession, current: RunningSession, restart: bool, autosaves: seq<Time>, reason: Option<RestartReason>): Supervisor
      reads this, session.world, session.cancellation
    {
      Supervisor(current, restart, session.cancellation.requested, session.world.isDestroyed, runningWorlds, autosaves, reason)
    }

    /** The events of one wait, delivered in order. */
    method HandleEvents(session: RunningSession, current: RunningSession, events: seq<Event>, restart: bool,
                        autosaves: seq<Time>, reason: Option<RestartReason>) returns (restart': bool)
      requires Owns(session)
      requires current.world == session.world && current.cancellation == session.cancellation && current.startInfo == session.startInfo
      modifies this`runningWorlds, session.world`isDestroyed, session.cancellation
      ensures Owns(session)
      ensures Snapshot(session, current, restart', autosaves, reason) ==
        ApplyEvents(old(Snapshot(session, current, restart, autosaves, reason)), events)
    {
      restart' := restart;
      ghost var start := Snapshot(session, current, restart, autosaves, reason);
      for j := 0 to |events|
        invariant Owns(session)
        invariant Snapshot(session, current, restart', autosaves, reason) == ApplyEvents(start, events[..j])
      {
        assert events[..j + 1][..j] == events[..j];
        restart' := HandleEvent(session, current, events[j], restart', autosaves, reason);
      }
      assert events[..|events|] == events;
    }

    /** One event of the wait. */
    method HandleEvent(session: RunningSession, current: RunningSession, e: Event, restart: bool,
                       autosaves: seq<Time>, reason: Option<RestartReason>) returns (restart': bool)
      requires Owns(session)
      requires current.world == session.world && current.cancellation == session.cancellation && current.startInfo == session.startInfo
      modifies this`runningWorlds, session.world`isDestroyed, session.cancellation
      ensures Owns(session)
      ensures Snapshot(session, current, restart', autosaves, reason) ==
        ApplyEvent(old(Snapshot(session, current, restart, autosaves, reason)), e)
    {
      var world := session.world;
      var id := world.sessionId;
      restart' := restart;
      match e
      case WorldFailed(failed) =>
        if !session.cancellation.requested && id == failed && session.startInfo.autoRecover {
          restart' := true;
        }
      case StopRequested =>
        StopWorld(id);
      case WorldDestroyed =>
        world.Destroy();
    }

    /** The loop body after the wait: the autosave check, the idle switch,
      * the two restart checks, each destroying the world and leaving the
      * loop, and the write-back. */
    method TickBodyStep(session: RunningSession, current: RunningSession, t: Tick, restart: bool,
                        autosaves: seq<Time>, reason: Option<RestartReason>)
      returns (next: RunningSession, restart': bool, autosaves': seq<Time>, reason': Option<RestartReason>)
      requires Owns(session) && !session.cancellation.requested
      requires current.world == session.world && current.cancellation == session.cancellation && current.startInfo == session.startInfo
      modifies this`runningWorlds, session.world`isDestroyed
      ensures Owns(session)
      ensures next.world == session.world && next.cancellation == session.cancellation && next.startInfo == session.startInfo
      ensures Snapshot(session, next, restart', autosaves', reason') ==
        TickBody(old(Snapshot(session, current, restart, autosaves, reason)), t)
    {
      var world := session.world;
      var originalRunningSession := current;
      var runningSession := current;
      restart', autosaves', reason' := restart, autosaves, reason;
      if SavesAt(runningSession, t) {
        autosaves' := autosaves' + [t.now];  // `SaveWorldAuto`
      }
      runningSession := AfterIdleSwitch(AfterAutosave(runningSession, t), t);
      if runningSession.HasIdleTimeElapsed(t.afterSave) {
        world.Destroy();
        return runningSession, true, autosaves', Some(IdleTimeout);
      }
      if runningSession.HasForcedRestartIntervalElapsed(t.afterSave) {
        world.Destroy();
        return runningSession, true, autosaves', Some(ForcedInterval);
      }
      runningSession := runningSession.(lastUserCount := t.userCount);
      var id := world.sessionId;
      if id in runningWorlds && runningWorlds[id] == originalRunningSession {
        runningWorlds := runningWorlds[id := runningSession];
      }
      next := runningSession;
    }

    /** One pass of the loop: the wait with its events, which leaves the loop
      * when cancelled, then the body. */
    method LoopPass(session: RunningSession, current: RunningSession, t: Tick, restart: bool,
                    autosaves: seq<Time>, reason: Option<RestartReason>)
      returns (next: RunningSession, restart': bool, autosaves': seq<Time>, reason': Option<RestartReason>)
      requires Owns(session)
      requires current.world == session.world && current.cancellation == session.cancellation && current.startInfo == session.startInfo
      modifies this`runningWorlds, session.world`isDestroyed, session.cancellation
      ensures Owns(session)
      ensures next.world == session.world && next.cancellation == session.cancellation && next.startInfo == session.startInfo
      ensures Snapshot(session, next, restart', autosaves', reason') ==
        Step(old(Snapshot(session, current, restart, autosaves, reason)), t)
    {
      var r := HandleEvents(session, current, t.events, restart, autosaves, reason);
      if session.cancellation.requested {
        return current, r, autosaves, reason;
      }
      next, restart', autosaves', reason' := TickBodyStep(session, current, t, r, autosaves, reason);
    }

    /** The loop of `SessionHandlerAsync` over the given ticks: it ends in
      * the state `RunTicks` prescribes. */
    method RunLoop(session: RunningSession, ticks: seq<Tick>)
      returns (runningSession: RunningSession, restart: bool, autosaves: seq<Time>, reason: Option<RestartReason>)
      requires Owns(session)
      modifies this`runningWorlds, session.world`isDestroyed, session.cancellation
      ensures Owns(session)
      ensures Snapshot(session, runningSession, restart, autosaves, reason) ==
        RunTicks(Initial(session, old(runningWorlds), old(session.cancellation.requested), old(session.world.isDestroyed)), ticks)
    {
      var world := session.world;
      restart := false;
      runningSession := session;
      autosaves := [];
      reason := None;
      ghost var init := Initial(session, runningWorlds, session.cancellation.requested, world.isDestroyed);
      var i := 0;
      while !session.cancellation.requested && !world.isDestroyed && i < |ticks|
        invariant 0 <= i <= |ticks| && Owns(session)
        invariant runningSession.world == world && runningSession.cancellation == session.cancellation
        invariant runningSession.startInfo == session.startInfo
        invariant Snapshot(session, runningSession, restart, autosaves, reason) == RunTicks(init, ticks[..i])
        decreases |ticks| - i
      {
        assert ticks[..i + 1][..i] == ticks[..i];
        runningSession, restart, autosaves, reason := LoopPass(session, runningSession, ticks[i], restart, autosaves, reason);
        i := i + 1;
      }
      RunTicksAfterExitOrEnd(init, ticks, i, Snapshot(session, runningSession, restart, autosaves, reason));
    }

    /** `SessionHandlerAsync` over the given ticks, then its exit path:
      * remove the session, then restart or stop it, destroying the world if
      * it is not destroyed yet. The result is exactly what `RunTicks` and
      * `Outcome` prescribe; `canSaveAtExit` is `Userspace.CanSave` when the
      * stop path asks. */
    method SessionHandler(session: RunningSession, ticks: seq<Tick>, canSaveAtExit: bool)
      returns (outcome: HandlerOutcome, autosaves: seq<Time>)
      requires Owns(session)
      modifies this`runningWorlds, session.world`isDestroyed, session.cancellation
      ensures var final := RunTicks(Initial(session, old(runningWorlds), old(session.cancellation.requested), old(session.world.isDestroyed)), ticks);
        && outcome == Outcome(final, session.world.saveOnExit, canSaveAtExit)
        && autosaves == final.autosaves
        && session.cancellation.requested == final.cancelled
        && (final.Exited() ==> runningWorlds == final.registry - {session.world.sessionId} && session.world.isDestroyed)
        && (!final.Exited() ==> runningWorlds == final.registry && !session.world.isDestroyed)
    {
      var world := session.world;
      var runningSession, restart, reason;
      runningSession, restart, autosaves, reason := RunLoop(session, ticks);
      outcome := Outcome(Snapshot(session, runningSession, restart, autosaves, reason), world.saveOnExit, canSaveAtExit);
      if !session.cancellation.requested && !world.isDestroyed {
        return;
      }
      // always remove us first
      runningWorlds := runningWorlds - {world.sessionId};
      if !world.isDestroyed {
        world.Destroy();
      }
    }
  }

  /** Where the loop of `SessionHandler` stops, the state is the state after
    * all the ticks: either the ticks ran out or the loop exited. */
  lemma RunTicksAfterExitOrEnd(init: Supervisor, ticks: seq<Tick>, i: nat, s: Supervisor)
    requires i <= |ticks| && s == RunTicks(init, ticks[..i])
    requires s.Exited() || i == |ticks|
    ensures RunTicks(init, ticks) == s
  {
    if s.Exited() {
      RunTicksAfterExit(init, ticks, i);
    } else {
      assert ticks[..i] == ticks;
    }
  }
}
