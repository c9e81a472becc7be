/** The gRPC controller of the headless host: the shutdown flag, the
  * validation in front of `StartWorld`, the per-session RPCs, the
  * session-parameter update, the role clamp, contact paging, the message
  * window and the host settings. Cloud and engine calls the controller only
  * forwards enter as parameters: the cloud's answers to the message fetches,
  * the world start, URI parsing. */
module GrpcController {
  import opened Wrappers
  import opened Text
  import opened Engine
  import Models
  import RpcConversion
  import CloudUtils
  import WorldExtensions

  /** The gRPC status of a failed call; an exception that is not an
    * `RpcException` reaches the client as `Unknown`. */
  datatype Status =
    | Unavailable(message: string)
    | InvalidArgument(message: string)
    | Internal(message: string)
    | Unknown(cause: RpcConversion.ConversionError)

  /** The engine calls the controller issues, in order. */
  datatype EngineCall = CancelShutdown | RequestShutdown

  const SessionNotFound: Status := InvalidArgument("Session not found")

  /** `int` addition and casts in an unchecked context: the value modulo 2^32
    * in the `int` range. */
  function Wrap32(n: int): (r: int)
    ensures IsInt32(r)
    ensures IsInt32(n) ==> r == n
  {
    (n - Int32Min) % 0x1_0000_0000 + Int32Min
  }

  /** LINQ `Skip`: a count that is not positive skips nothing. */
  function Skip<T>(s: seq<T>, n: int): (r: seq<T>)
    ensures r == s[if n <= 0 then 0 else if n >= |s| then |s| else n..]
  {
    if n <= 0 then s else if n >= |s| then [] else s[n..]
  }

  /** LINQ `Take`: a count that is not positive takes nothing. */
  function Take<T>(s: seq<T>, n: int): (r: seq<T>)
    ensures |r| == if n <= 0 then 0 else if n >= |s| then |s| else n
    ensures r == s[..|r|]
  {
    if n <= 0 then [] else if n >= |s| then s else s[..n]
  }

  // ---------------------------------------------------------------------
  // Session parameters

  /** An `UpdateSessionParametersRequest`; an optional field is `Some` exactly
    * when its `Has*` flag is set. */
  datatype SessionUpdate = SessionUpdate(
    sessionId: string,
    name: Option<string>,
    description: Option<string>,
    maxUsers: Option<int>,
    accessLevel: Option<RpcConversion.ProtoAccessLevel>,
    awayKickMinutes: Option<int>,
    idleRestartIntervalSeconds: Option<int>,
    saveOnExit: Option<bool>,
    autoSaveIntervalSeconds: Option<int>,
    hideFromPublicListing: Option<bool>,
    autoSleep: Option<bool>,
    useCustomJoinVerifier: Option<bool>,
    mobileFriendly: Option<bool>,
    overrideCorrespondingWorldId: Option<RpcConversion.ProtoRecordId>,
    roleCloudVariable: Option<string>,
    allowUserCloudVariable: Option<string>,
    denyUserCloudVariable: Option<string>,
    requiredUserJoinCloudVariable: Option<string>,
    requiredUserJoinCloudVariableDenyMessage: Option<string>,
    updateTags: bool,
    tags: seq<string>)

  /** A restart or autosave interval given in seconds, in ticks: a positive
    * count is kept, anything else disables the timer with -1 second. */
  function IntervalFromSeconds(seconds: int): (r: int)
    ensures r > 0 <==> seconds > 0
    ensures TotalSeconds(r) == if seconds > 0 then seconds else -1
  {
    TotalSecondsFromSeconds(seconds);
    TotalSecondsFromSeconds(-1);
    if seconds > 0 then FromSeconds(seconds) else FromSeconds(-1)
  }

  /** An interval disabled by an update never elapses, and one that is set
    * is reported back in seconds when the session's start parameters are
    * regenerated. */
  lemma IntervalUpdateIsReported(s: Models.RunningSession, seconds: int, now: Time)
    requires s.autosaveInterval == IntervalFromSeconds(seconds)
    ensures seconds <= 0 ==> !s.HasAutosaveIntervalElapsed(now)
    ensures s.GenerateStartupParameters().autoSaveInterval == if seconds > 0 then seconds else -1
  {
    Models.DisabledIntervalsNeverElapse(s, now);
  }

  /** The settings `UpdateSessionParameters` may write, grouped by the
    * order in which it writes them. */
  datatype Names = Names(name: Option<string>, description: Option<string>, maxUsers: int, accessLevel: SessionAccessLevel)
  datatype Flags = Flags(hideFromListing: bool, useCustomJoinVerifier: bool, mobileFriendly: bool)
  datatype Timers = Timers(awayKickEnabled: bool, awayKickMinutes: int, idleRestartInterval: int, saveOnExit: bool,
                           autosaveInterval: int, forceFullUpdateCycle: bool)
  datatype Paths = Paths(role: Option<string>, allow: Option<string>, deny: Option<string>, required: Option<string>)
  datatype Tail = Tail(denyMessage: Option<string>, tags: seq<string>)
  datatype Settings = Settings(names: Names, flags: Flags, timers: Timers, worldId: Option<RecordId>, paths: Paths, tail: Tail)

  function NamesOf(w: World): Names
    reads w`name, w`description, w`maxUsers, w`accessLevel
  {
    Names(w.name, w.description, w.maxUsers, w.accessLevel)
  }

  function FlagsOf(w: World): Flags
    reads w`hideFromListing, w`useCustomJoinVerifier, w`mobileFriendly
  {
    Flags(w.hideFromListing, w.useCustomJoinVerifier, w.mobileFriendly)
  }

  function TimersOf(s: Models.RunningSession): Timers
    reads s`idleRestartInterval, s`autosaveInterval
    reads s.instance`awayKickEnabled, s.instance`awayKickMinutes, s.instance`saveOnExit, s.instance`forceFullUpdateCycle
  {
    Timers(s.instance.awayKickEnabled, s.instance.awayKickMinutes, s.idleRestartInterval, s.instance.saveOnExit,
           s.autosaveInterval, s.instance.forceFullUpdateCycle)
  }

  function PathsOf(w: World): Paths
    reads w`roleCloudVariable, w`allowUserCloudVariable, w`denyUserCloudVariable, w`requiredUserJoinCloudVariable
  {
    Paths(w.roleCloudVariable, w.allowUserCloudVariable, w.denyUserCloudVariable, w.requiredUserJoinCloudVariable)
  }

  function TailOf(w: World): Tail
    reads w`requiredUserJoinCloudVariableDenyMessage, w`tags
  {
    Tail(w.requiredUserJoinCloudVariableDenyMessage, w.tags)
  }

  /** The settings of a session and its world. */
  function SettingsOf(s: Models.RunningSession): Settings
    reads s`idleRestartInterval, s`autosaveInterval
    reads s.instance`name, s.instance`description, s.instance`maxUsers, s.instance`accessLevel
    reads s.instance`hideFromListing, s.instance`useCustomJoinVerifier, s.instance`mobileFriendly
    reads s.instance`awayKickEnabled, s.instance`awayKickMinutes, s.instance`saveOnExit, s.instance`forceFullUpdateCycle
    reads s.instance`correspondingWorldId
    reads s.instance`roleCloudVariable, s.instance`allowUserCloudVariable, s.instance`denyUserCloudVariable
    reads s.instance`requiredUserJoinCloudVariable, s.instance`requiredUserJoinCloudVariableDenyMessage, s.instance`tags
  {
    Settings(NamesOf(s.instance), FlagsOf(s.instance), TimersOf(s), s.instance.correspondingWorldId, PathsOf(s.instance), TailOf(s.instance))
  }

  /** `x` when present, else `old`. */
  function Present<T>(x: Option<T>, old_: T): T {
    if x.Some? then x.value else old_
  }

  /** The descriptive fields: each is written only when present. */
  function UpdateNames(v: Names, u: SessionUpdate): Names {
    Names(if u.name.Some? then u.name else v.name,
          if u.description.Some? then u.description else v.description,
          Present(u.maxUsers, v.maxUsers),
          if u.accessLevel.Some? then RpcConversion.AccessLevelToResonite(u.accessLevel.value) else v.accessLevel)
  }

  /** The listing flags: each is written only when present. */
  function UpdateFlags(v: Flags, u: SessionUpdate): Flags {
    Flags(Present(u.hideFromPublicListing, v.hideFromListing),
          Present(u.useCustomJoinVerifier, v.useCustomJoinVerifier),
          Present(u.mobileFriendly, v.mobileFriendly))
  }

  /** The timers: away-kick and the two intervals follow their
    * positive-or-disabled rules, auto-sleep is the negation of
    * `ForceFullUpdateCycle`. */
  function UpdateTimers(v: Timers, u: SessionUpdate): Timers {
    var kick := if u.awayKickMinutes.Some? then WorldExtensions.AwayKick(u.awayKickMinutes.value)
                else (v.awayKickEnabled, v.awayKickMinutes);
    Timers(kick.0, kick.1,
           if u.idleRestartIntervalSeconds.Some? then IntervalFromSeconds(u.idleRestartIntervalSeconds.value) else v.idleRestartInterval,
           Present(u.saveOnExit, v.saveOnExit),
           if u.autoSaveIntervalSeconds.Some? then IntervalFromSeconds(u.autoSaveIntervalSeconds.value) else v.autosaveInterval,
           if u.autoSleep.Some? then !u.autoSleep.value else v.forceFullUpdateCycle)
  }

  /** Whether the override of the corresponding world passes: absent or with
    * an empty id it is ignored, otherwise the record id must be valid. */
  predicate WorldIdAcceptable(u: SessionUpdate, cloud: Cloud) {
    var o := u.overrideCorrespondingWorldId;
    o.None? || o.value.id == "" || cloud.isValidRecordId(RecordId(o.value.ownerId, o.value.id))
  }

  predicate PathAcceptable(path: Option<string>, cloud: Cloud) {
    path.None? || cloud.isValidPath(path.value)
  }

  /** How many of the five checks, in request order, pass before the first
    * one that fails (5 when none fails). */
  function PassedChecks(u: SessionUpdate, cloud: Cloud): (r: nat)
    ensures r <= 5
  {
    if !WorldIdAcceptable(u, cloud) then 0
    else if !PathAcceptable(u.roleCloudVariable, cloud) then 1
    else if !PathAcceptable(u.allowUserCloudVariable, cloud) then 2
    else if !PathAcceptable(u.denyUserCloudVariable, cloud) then 3
    else if !PathAcceptable(u.requiredUserJoinCloudVariable, cloud) then 4
    else 5
  }

  /** The status of the check that failed. */
  function Rejection(failed: nat): Status {
    InvalidArgument(
      if failed == 0 then "invalid CorrespondingWorldId"
      else if failed == 1 then "Invalid RoleCloudVariable"
      else if failed == 2 then "Invalid AllowUserCloudVariable"
      else if failed == 3 then "Invalid DenyUserCloudVariable"
      else "Invalid RequiredUserJoinCloudVariable")
  }

  /** An update is rejected at check k exactly when the checks before k pass
    * and check k fails; it is accepted exactly when all five pass. */
  lemma RejectionIsFirstFailure(u: SessionUpdate, cloud: Cloud)
    ensures PassedChecks(u, cloud) == 5 <==>
      && WorldIdAcceptable(u, cloud)
      && PathAcceptable(u.roleCloudVariable, cloud)
      && PathAcceptable(u.allowUserCloudVariable, cloud)
      && PathAcceptable(u.denyUserCloudVariable, cloud)
      && PathAcceptable(u.requiredUserJoinCloudVariable, cloud)
    ensures PassedChecks(u, cloud) >= 1 <==> WorldIdAcceptable(u, cloud)
    ensures PassedChecks(u, cloud) == 2 ==> !PathAcceptable(u.allowUserCloudVariable, cloud)
  {
  }

  /** The override of the corresponding world: written when present with an
    * id and accepted. */
  function UpdateWorldId(v: Option<RecordId>, u: SessionUpdate, cloud: Cloud): Option<RecordId> {
    var o := u.overrideCorrespondingWorldId;
    if PassedChecks(u, cloud) >= 1 && o.Some? && o.value.id != "" then Some(RecordId(o.value.ownerId, o.value.id)) else v
  }

  /** The cloud variables: each is written only when present and when its
    * check and all checks before it pass. */
  function UpdatePaths(v: Paths, u: SessionUpdate, cloud: Cloud): Paths {
    var passed := PassedChecks(u, cloud);
    Paths(if passed >= 2 && u.roleCloudVariable.Some? then u.roleCloudVariable else v.role,
          if passed >= 3 && u.allowUserCloudVariable.Some? then u.allowUserCloudVariable else v.allow,
          if passed >= 4 && u.denyUserCloudVariable.Some? then u.denyUserCloudVariable else v.deny,
          if passed >= 5 && u.requiredUserJoinCloudVariable.Some? then u.requiredUserJoinCloudVariable else v.required)
  }

  /** The fields after the checks: written only when every check passed. */
  function UpdateTail(v: Tail, u: SessionUpdate, cloud: Cloud): Tail {
    var all := PassedChecks(u, cloud) == 5;
    Tail(if all && u.requiredUserJoinCloudVariableDenyMessage.Some? then u.requiredUserJoinCloudVariableDenyMessage else v.denyMessage,
         if all && u.updateTags then u.tags else v.tags)
  }

  /** The settings after an update, accepted or not. */
  function Updated(v: Settings, u: SessionUpdate, cloud: Cloud): Settings {
    Settings(UpdateNames(v.names, u), UpdateFlags(v.flags, u), UpdateTimers(v.timers, u),
             UpdateWorldId(v.worldId, u, cloud), UpdatePaths(v.paths, u, cloud), UpdateTail(v.tail, u, cloud))
  }

  /** An update that names no field changes nothing. */
  lemma EmptyUpdateChangesNothing(v: Settings, u: SessionUpdate, cloud: Cloud)
    requires u.name.None? && u.description.None? && u.maxUsers.None? && u.accessLevel.None?
    requires u.awayKickMinutes.None? && u.idleRestartIntervalSeconds.None? && u.saveOnExit.None?
    requires u.autoSaveIntervalSeconds.None? && u.hideFromPublicListing.None? && u.autoSleep.None?
    requires u.useCustomJoinVerifier.None? && u.mobileFriendly.None? && u.overrideCorrespondingWorldId.None?
    requires u.roleCloudVariable.None? && u.allowUserCloudVariable.None? && u.denyUserCloudVariable.None?
    requires u.requiredUserJoinCloudVariable.None? && u.requiredUserJoinCloudVariableDenyMessage.None? && !u.updateTags
    ensures Updated(v, u, cloud) == v
  {
  }

  /** Sending the same update twice has the effect of sending it once. */
  lemma UpdateIsIdempotent(v: Settings, u: SessionUpdate, cloud: Cloud)
    ensures Updated(Updated(v, u, cloud), u, cloud) == Updated(v, u, cloud)
  {
    PartsIdempotent(v, u, cloud);
  }

  /** Each group of fields is written with values that do not depend on
    * the old ones. */
  lemma PartsIdempotent(v: Settings, u: SessionUpdate, cloud: Cloud)
    ensures UpdateNames(UpdateNames(v.names, u), u) == UpdateNames(v.names, u)
    ensures UpdateFlags(UpdateFlags(v.flags, u), u) == UpdateFlags(v.flags, u)
    ensures UpdateTimers(UpdateTimers(v.timers, u), u) == UpdateTimers(v.timers, u)
    ensures UpdateWorldId(UpdateWorldId(v.worldId, u, cloud), u, cloud) == UpdateWorldId(v.worldId, u, cloud)
    ensures UpdatePaths(UpdatePaths(v.paths, u, cloud), u, cloud) == UpdatePaths(v.paths, u, cloud)
    ensures UpdateTail(UpdateTail(v.tail, u, cloud), u, cloud) == UpdateTail(v.tail, u, cloud)
  {
  }

  /** A rejected update keeps the fields written before the failing check
    * and writes none after it. */
  lemma RejectionKeepsEarlierFields(v: Settings, u: SessionUpdate, cloud: Cloud)
    requires PassedChecks(u, cloud) < 5
    ensures var after := Updated(v, u, cloud);
      && after.names == UpdateNames(v.names, u) && after.flags == UpdateFlags(v.flags, u)
      && after.timers == UpdateTimers(v.timers, u) && after.tail == v.tail
      && (PassedChecks(u, cloud) == 0 ==> after.worldId == v.worldId && after.paths == v.paths)
  {
  }

  method ApplyNames(w: World, u: SessionUpdate)
    modifies w`name, w`description, w`maxUsers, w`accessLevel
    ensures NamesOf(w) == UpdateNames(old(NamesOf(w)), u)
  {
    w.name := if u.name.Some? then u.name else w.name;
    w.description := if u.description.Some? then u.description else w.description;
    w.maxUsers := if u.maxUsers.Some? then u.maxUsers.value else w.maxUsers;
    w.accessLevel := if u.accessLevel.Some? then RpcConversion.AccessLevelToResonite(u.accessLevel.value) else w.accessLevel;
  }

  method ApplyFlags(w: World, u: SessionUpdate)
    modifies w`hideFromListing, w`useCustomJoinVerifier, w`mobileFriendly
    ensures FlagsOf(w) == UpdateFlags(old(FlagsOf(w)), u)
  {
    w.hideFromListing := if u.hideFromPublicListing.Some? then u.hideFromPublicListing.value else w.hideFromListing;
    w.useCustomJoinVerifier := if u.useCustomJoinVerifier.Some? then u.useCustomJoinVerifier.value else w.useCustomJoinVerifier;
    w.mobileFriendly := if u.mobileFriendly.Some? then u.mobileFriendly.value else w.mobileFriendly;
  }

  method ApplyTimers(s: Models.RunningSession, u: SessionUpdate)
    modifies s.instance`awayKickEnabled, s.instance`awayKickMinutes, s.instance`saveOnExit, s.instance`forceFullUpdateCycle
    modifies s`idleRestartInterval, s`autosaveInterval
    ensures TimersOf(s) == UpdateTimers(old(TimersOf(s)), u)
  {
    var w := s.instance;
    if u.awayKickMinutes.Some? {
      if u.awayKickMinutes.value > 0 {
        w.awayKickEnabled := true;
        w.awayKickMinutes := u.awayKickMinutes.value;
      } else {
        w.awayKickEnabled := false;
        w.awayKickMinutes := -1;
      }
    }
    if u.idleRestartIntervalSeconds.Some? {
      s.idleRestartInterval := IntervalFromSeconds(u.idleRestartIntervalSeconds.value);
    }
    if u.saveOnExit.Some? {
      w.saveOnExit := u.saveOnExit.value;
    }
    if u.autoSaveIntervalSeconds.Some? {
      s.autosaveInterval := IntervalFromSeconds(u.autoSaveIntervalSeconds.value);
    }
    if u.autoSleep.Some? {
      w.forceFullUpdateCycle := !u.autoSleep.value;
    }
  }

  method ApplyWorldId(w: World, u: SessionUpdate, cloud: Cloud) returns (accepted: bool)
    modifies w`correspondingWorldId
    ensures accepted <==> WorldIdAcceptable(u, cloud)
    ensures w.correspondingWorldId == UpdateWorldId(old(w.correspondingWorldId), u, cloud)
  {
    var o := u.overrideCorrespondingWorldId;
    if o.Some? && o.value.id != "" {
      var id := RecordId(o.value.ownerId, o.value.id);
      if cloud.isValidRecordId(id) {
        w.correspondingWorldId := Some(id);
      } else {
        return false;
      }
    }
    return true;
  }

  method ApplyPaths(w: World, u: SessionUpdate, cloud: Cloud) returns (r: Result<(), Status>)
    requires WorldIdAcceptable(u, cloud)
    modifies w`roleCloudVariable, w`allowUserCloudVariable, w`denyUserCloudVariable, w`requiredUserJoinCloudVariable
    ensures r.Ok? <==> PassedChecks(u, cloud) == 5
    ensures r.Err? ==> r.error == Rejection(PassedChecks(u, cloud))
    ensures PathsOf(w) == UpdatePaths(old(PathsOf(w)), u, cloud)
  {
    if u.roleCloudVariable.Some? {
      if cloud.isValidPath(u.roleCloudVariable.value) {
        w.roleCloudVariable := u.roleCloudVariable;
      } else {
        return Err(Rejection(1));
      }
    }
    if u.allowUserCloudVariable.Some? {
      if cloud.isValidPath(u.allowUserCloudVariable.value) {
        w.allowUserCloudVariable := u.allowUserCloudVariable;
      } else {
        return Err(Rejection(2));
      }
    }
    if u.denyUserCloudVariable.Some? {
      if cloud.isValidPath(u.denyUserCloudVariable.value) {
        w.denyUserCloudVariable := u.denyUserCloudVariable;
      } else {
        return Err(Rejection(3));
      }
    }
    if u.requiredUserJoinCloudVariable.Some? {
      if cloud.isValidPath(u.requiredUserJoinCloudVariable.value) {
        w.requiredUserJoinCloudVariable := u.requiredUserJoinCloudVariable;
      } else {
        return Err(Rejection(4));
      }
    }
    return Ok(());
  }

  method ApplyTail(w: World, u: SessionUpdate, cloud: Cloud)
    requires PassedChecks(u, cloud) == 5
    modifies w`requiredUserJoinCloudVariableDenyMessage, w`tags
    ensures TailOf(w) == UpdateTail(old(TailOf(w)), u, cloud)
  {
    if u.requiredUserJoinCloudVariableDenyMessage.Some? {
      w.requiredUserJoinCloudVariableDenyMessage := u.requiredUserJoinCloudVariableDenyMessage;
    }
    if u.updateTags {
      w.tags := u.tags;
    }
  }

  /** The fields written before any check, in request order. */
  method ApplyUnchecked(s: Models.RunningSession, u: SessionUpdate)
    modifies s`idleRestartInterval, s`autosaveInterval
    modifies s.instance`name, s.instance`description, s.instance`maxUsers, s.instance`accessLevel
    modifies s.instance`hideFromListing, s.instance`useCustomJoinVerifier, s.instance`mobileFriendly
    modifies s.instance`awayKickEnabled, s.instance`awayKickMinutes, s.instance`saveOnExit, s.instance`forceFullUpdateCycle
    ensures NamesOf(s.instance) == UpdateNames(old(NamesOf(s.instance)), u)
    ensures FlagsOf(s.instance) == UpdateFlags(old(FlagsOf(s.instance)), u)
    ensures TimersOf(s) == UpdateTimers(old(TimersOf(s)), u)
  {
    var w := s.instance;
    ApplyNames(w, u);
    ApplyFlags(w, u);
    ApplyTimers(s, u);
  }

  /** The checked fields and the fields after them, in request order, until
    * a check fails. */
  method ApplyChecked(w: World, u: SessionUpdate, cloud: Cloud) returns (r: Result<(), Status>)
    modifies w`correspondingWorldId
    modifies w`roleCloudVariable, w`allowUserCloudVariable, w`denyUserCloudVariable, w`requiredUserJoinCloudVariable
    modifies w`requiredUserJoinCloudVariableDenyMessage, w`tags
    ensures r.Ok? <==> PassedChecks(u, cloud) == 5
    ensures r.Err? ==> r.error == Rejection(PassedChecks(u, cloud))
    ensures w.correspondingWorldId == UpdateWorldId(old(w.correspondingWorldId), u, cloud)
    ensures PathsOf(w) == UpdatePaths(old(PathsOf(w)), u, cloud)
    ensures TailOf(w) == UpdateTail(old(TailOf(w)), u, cloud)
  {
    var accepted := ApplyWorldId(w, u, cloud);
    if accepted {
      r := ApplyPaths(w, u, cloud);
      if r.Ok? {
        ApplyTail(w, u, cloud);
      }
    } else {
      r := Err(Rejection(0));
    }
  }

  /** The body of `UpdateSessionParameters` once the session is found. */
  method ApplyUpdate(s: Models.RunningSession, u: SessionUpdate, cloud: Cloud) returns (r: Result<(), Status>)
    modifies s`idleRestartInterval, s`autosaveInterval
    modifies s.instance`name, s.instance`description, s.instance`maxUsers, s.instance`accessLevel
    modifies s.instance`hideFromListing, s.instance`useCustomJoinVerifier, s.instance`mobileFriendly
    modifies s.instance`awayKickEnabled, s.instance`awayKickMinutes, s.instance`saveOnExit, s.instance`forceFullUpdateCycle
    modifies s.instance`correspondingWorldId
    modifies s.instance`roleCloudVariable, s.instance`allowUserCloudVariable, s.instance`denyUserCloudVariable
    modifies s.instance`requiredUserJoinCloudVariable, s.instance`requiredUserJoinCloudVariableDenyMessage, s.instance`tags
    ensures r.Ok? <==> PassedChecks(u, cloud) == 5
    ensures r.Err? ==> r.error == Rejection(PassedChecks(u, cloud))
    ensures SettingsOf(s) == Updated(old(SettingsOf(s)), u, cloud)
  {
    var w := s.instance;
    ApplyUnchecked(s, u);
    r := ApplyChecked(w, u, cloud);
    assert NamesOf(w) == UpdateNames(old(NamesOf(w)), u);
    assert FlagsOf(w) == UpdateFlags(old(FlagsOf(w)), u);
    assert TimersOf(s) == UpdateTimers(old(TimersOf(s)), u);
  }

  // ---------------------------------------------------------------------
  // Roles

  /** `Roles.FirstOrDefault` by case-insensitive name: the index of the
    * first role with the name. */
  function FindRole(roles: seq<Role>, name: string): (r: Option<nat>)
    ensures r.Some? ==> r.value < |roles| && EqualsIgnoreCase(roles[r.value].name, name)
    ensures r.Some? ==> forall j :: 0 <= j < r.value ==> !EqualsIgnoreCase(roles[j].name, name)
    ensures r.None? <==> forall j :: 0 <= j < |roles| ==> !EqualsIgnoreCase(roles[j].name, name)
  {
    if roles == [] then None
    else if EqualsIgnoreCase(roles[0].name, name) then Some(0)
    else
      var rest := FindRole(roles[1..], name);
      assert forall j :: 1 <= j < |roles| ==> roles[j] == roles[1..][j - 1];
      if rest.Some? then Some(rest.value + 1) else None
  }

  /** Which user an `UpdateUserRole` request names: by id when an id is
    * given, otherwise by name; a request that gives neither names nobody. */
  predicate NamesUser(user: User, userId: Option<string>, userName: Option<string>) {
    if userId.Some? then user.userId == userId
    else userName.Some? && user.userName == userName
  }

  /** The index of the first non-host user the request names. */
  function FindGuest(users: seq<User>, userId: Option<string>, userName: Option<string>): (r: Option<nat>)
    ensures r.Some? ==> r.value < |users| && !users[r.value].isHost && NamesUser(users[r.value], userId, userName)
    ensures r.Some? ==> forall j :: 0 <= j < r.value ==> users[j].isHost || !NamesUser(users[j], userId, userName)
    ensures r.None? <==> forall j :: 0 <= j < |users| ==> users[j].isHost || !NamesUser(users[j], userId, userName)
  {
    if users == [] then None
    else if !users[0].isHost && NamesUser(users[0], userId, userName) then Some(0)
    else
      var rest := FindGuest(users[1..], userId, userName);
      assert forall j :: 1 <= j < |users| ==> users[j] == users[1..][j - 1];
      if rest.Some? then Some(rest.value + 1) else None
  }

  /** A role the controller assigns never outranks the host, and the host is
    * never the target. */
  lemma AssignedRoleIsClamped(w: World, roleName: string, userId: Option<string>, userName: Option<string>)
    requires FindRole(w.roles, roleName).Some? && FindGuest(w.users, userId, userName).Some?
    ensures FilterRole(w.roles[FindRole(w.roles, roleName).value], w.hostRole).rank <= w.hostRole.rank
    ensures !w.users[FindGuest(w.users, userId, userName).value].isHost
  {
  }

  // ---------------------------------------------------------------------
  // Contact paging

  /** A page of `ListContacts`; `nextCursor` is set only when more remain,
    * and the response carries it as its decimal text (`IntToString`). */
  datatype ContactPage = ContactPage(users: seq<Contact>, nextCursor: Option<int>)

  /** Where a page starts: the parsed cursor, or 0 when it is empty or not a
    * number. */
  function CursorStart(cursor: string): (r: int)
    ensures IsInt32(r)
    ensures cursor == "" ==> r == 0
  {
    if cursor != "" && TryParseInt32(cursor).Some? then TryParseInt32(cursor).value else 0
  }

  /** The contacts from a start position: a negative start is the beginning. */
  function From(contacts: seq<Contact>, start: int): seq<Contact> {
    Skip(contacts, start)
  }

  /** The page of `ListContacts` from a start position, as written:
    * `Limit + 1` and the next cursor are `int` sums that wrap. */
  function PageAsWritten(contacts: seq<Contact>, start: int, limit: int): (r: ContactPage)
    requires IsInt32(limit)
    ensures |r.users| <= if limit < 0 then 0 else limit
    ensures |r.users| <= |From(contacts, start)|
    ensures r.users == From(contacts, start)[..|r.users|]
  {
    var from := From(contacts, start);
    var paged := Take(from, Wrap32(limit + 1));
    var page := Take(paged, limit);
    assert page == from[..|page|];
    ContactPage(page, if |paged| > limit then Some(Wrap32(start + limit)) else None)
  }

  /** With `Limit` at `int.MaxValue` the page is empty and has no cursor,
    * however many contacts there are. */
  lemma MaxLimitPageIsEmpty(c: Contact)
    ensures PageAsWritten([c], 0, Int32Max) == ContactPage([], None)
    ensures Page([c], 0, Int32Max).users == [c]
  {
  }

  /** The page from a start position, with the one-past-the-limit probe
    * computed without overflow. */
  function Page(contacts: seq<Contact>, start: int, limit: int): (r: ContactPage)
    requires IsInt32(limit)
    ensures |r.users| == if limit <= 0 then 0 else Min(limit, |From(contacts, start)|)
    ensures r.users == From(contacts, start)[..|r.users|]
    ensures limit >= 0 ==> (r.nextCursor.Some? <==> |From(contacts, start)| > limit)
    ensures r.nextCursor.Some? ==> r.nextCursor == Some(Wrap32(start + limit))
  {
    var from := From(contacts, start);
    var paged := Take(from, limit + 1);
    var page := Take(paged, limit);
    assert |page| == if limit <= 0 then 0 else Min(limit, |from|);
    assert page == from[..|page|];
    ContactPage(page, if |paged| > limit then Some(Wrap32(start + limit)) else None)
  }

  /** A user of the `ListContacts` reply. */
  datatype UserInfo = UserInfo(id: string, name: string, iconUrl: string)

  /** The `ListContacts` reply: the users of the page and the next cursor. */
  datatype ContactList = ContactList(users: seq<UserInfo>, nextCursor: Option<int>)

  /** The icon text sent for a resolved URL: `?? ""`. */
  function IconText(url: Option<string>): (r: string)
    ensures url.Some? ==> r == url.value
    ensures url.None? ==> r == ""
  {
    url.GetOr("")
  }

  /** The projection `resultContacts.Select(c => new UserInfo { ... })` as
    * `Users = { userInfos }` enumerates it: each contact's id, name and
    * resolved icon, in order; the first icon `ResolveURL` rejects fails the
    * call. `parse` is `new Uri`. */
  function UserInfos(contacts: seq<Contact>, resolver: CloudUtils.Resolver, parse: string -> Option<CloudUtils.Uri>)
    : (r: Result<seq<UserInfo>, CloudUtils.ResolveError>)
    reads resolver
    ensures r.Err? <==> exists i :: 0 <= i < |contacts| && resolver.ResolveURLString(contacts[i].iconUrl, parse).Err?
    ensures r.Err? ==>
      exists i :: 0 <= i < |contacts| && resolver.ResolveURLString(contacts[i].iconUrl, parse) == Err(r.error) &&
                  (forall j :: 0 <= j < i ==> resolver.ResolveURLString(contacts[j].iconUrl, parse).Ok?)
    ensures r.Ok? ==> |r.value| == |contacts|
    ensures r.Ok? ==> forall i :: 0 <= i < |contacts| ==>
      r.value[i] == UserInfo(contacts[i].userId, contacts[i].userName,
                             IconText(resolver.ResolveURLString(contacts[i].iconUrl, parse).value))
  {
    if contacts == [] then Ok([])
    else
      match resolver.ResolveURLString(contacts[0].iconUrl, parse)
      case Err(e) => Err(e)
      case Ok(icon) =>
        var rest := UserInfos(contacts[1..], resolver, parse);
        assert forall i :: 1 <= i < |contacts| ==> contacts[i] == contacts[1..][i - 1];
        if rest.Err? then Err(rest.error)
        else Ok([UserInfo(contacts[0].userId, contacts[0].userName, IconText(icon))] + rest.value)
  }

  /** `ListContacts`: the page from the cursor, as written, projected to user
    * infos. Below `int.MaxValue` the page is the intended one; at
    * `int.MaxValue` it is empty and has no cursor. The call fails exactly when
    * the icon of a contact on the page does not resolve. */
  function ListContacts(contacts: seq<Contact>, cursor: string, limit: int,
                        resolver: CloudUtils.Resolver, parse: string -> Option<CloudUtils.Uri>)
    : (r: Result<ContactList, CloudUtils.ResolveError>)
    reads resolver
    requires IsInt32(limit)
    ensures limit == Int32Max ==> r == Ok(ContactList([], None))
    ensures r.Ok? ==> |r.value.users| <= |From(contacts, CursorStart(cursor))|
    ensures r.Ok? ==> forall i :: 0 <= i < |r.value.users| ==>
      r.value.users[i].id == From(contacts, CursorStart(cursor))[i].userId &&
      r.value.users[i].name == From(contacts, CursorStart(cursor))[i].userName
    ensures limit < Int32Max ==> ListedAs(r, Page(contacts, CursorStart(cursor), limit), resolver, parse)
  {
    var start := CursorStart(cursor);
    PageAsWrittenBelowMax(contacts, start, limit);
    var page := PageAsWritten(contacts, start, limit);
    match UserInfos(page.users, resolver, parse)
    case Err(e) => Err(e)
    case Ok(users) => Ok(ContactList(users, page.nextCursor))
  }

  /** A contact whose icon URL has a scheme the resolver does not support,
    * such as `local://x`, fails a one-contact page. */
  lemma UnsupportedIconFails(c: Contact, resolver: CloudUtils.Resolver, parse: string -> Option<CloudUtils.Uri>)
    requires c.iconUrl.Some? && parse(c.iconUrl.value) == Some(CloudUtils.Uri("local", c.iconUrl.value))
    requires resolver.assetInterface.dbScheme != "local"
    ensures ListContacts([c], "", 1, resolver, parse) == Err(CloudUtils.UnsupportedScheme("local"))
  {
    assert Page([c], CursorStart(""), 1).users == [c];
  }

  /** A reply that holds a page: it fails exactly when the icon of a contact
    * on the page does not resolve, and otherwise lists those contacts with
    * the page's cursor. */
  predicate ListedAs(r: Result<ContactList, CloudUtils.ResolveError>, page: ContactPage,
                     resolver: CloudUtils.Resolver, parse: string -> Option<CloudUtils.Uri>)
    reads resolver
  {
    && (r.Err? <==> exists i :: 0 <= i < |page.users| && resolver.ResolveURLString(page.users[i].iconUrl, parse).Err?)
    && (r.Ok? ==> r.value.nextCursor == page.nextCursor && |r.value.users| == |page.users|)
    && (r.Ok? ==> forall i :: 0 <= i < |page.users| ==>
          r.value.users[i] == UserInfo(page.users[i].userId, page.users[i].userName,
                                       IconText(resolver.ResolveURLString(page.users[i].iconUrl, parse).value)))
  }

  /** Below `int.MaxValue` the wrapping sums agree with the exact ones; at
    * `int.MaxValue` the probe wraps to a negative count. */
  lemma PageAsWrittenBelowMax(contacts: seq<Contact>, start: int, limit: int)
    requires IsInt32(limit)
    ensures limit < Int32Max ==> PageAsWritten(contacts, start, limit) == Page(contacts, start, limit)
    ensures limit == Int32Max ==> PageAsWritten(contacts, start, limit) == ContactPage([], None)
  {
    if limit < Int32Max {
      assert Wrap32(limit + 1) == limit + 1;
    } else {
      assert Wrap32(limit + 1) < 0;
    }
  }

  function Min(a: int, b: int): int {
    if a <= b then a else b
  }

  /** The cursor a page hands out is read back as the number it was made
    * from. */
  lemma CursorTextRoundTrips(n: int)
    requires IsInt32(n)
    ensures CursorStart(IntToString(n)) == n
  {
    ParseIntToString(n);
  }

  /** Following the cursor continues where the page ended: two consecutive
    * pages are the contacts from the first start, with nothing skipped or
    * repeated. The second start is what the first page's cursor text reads
    * back as (`CursorTextRoundTrips`). */
  lemma {:induction false} CursorContinuesPage(contacts: seq<Contact>, start: int, limit: int)
    requires IsInt32(limit) && limit > 0
    requires 0 <= start && start + limit < |contacts| && IsInt32(start + limit)
    ensures Page(contacts, start, limit).nextCursor == Some(start + limit)
    ensures var first := Page(contacts, start, limit).users;
      var second := Page(contacts, start + limit, limit).users;
      first + second == contacts[start..start + |first| + |second|]
  {
    var first := Page(contacts, start, limit).users;
    var second := Page(contacts, start + limit, limit).users;
    assert From(contacts, start) == contacts[start..];
    assert From(contacts, start + limit) == contacts[start + limit..];
    assert |first| == limit;
    assert start + limit + |second| <= |contacts|;
    forall i | 0 <= i < |first| + |second|
      ensures (first + second)[i] == contacts[start + i]
    {
      if i < |first| {
        assert first[i] == contacts[start..][i];
      } else {
        assert second[i - limit] == contacts[start + limit..][i - limit];
      }
    }
  }

  // ---------------------------------------------------------------------
  // Contact messages

  /** `SkyFrost.Base.MessageType` */
  datatype MessageType = ObjectMessage | SoundMessage | TextMessage | SessionInviteMessage | OtherMessage(code: int)

  /** `ContactChatMessageType` */
  datatype ProtoMessageType = PUnspecifiedType | PObject | PSound | PText | PSessionInvite

  /** A cloud message; times are ticks. */
  datatype Message = Message(id: string, messageType: MessageType, content: string, sendTime: int, readTime: Option<int>, senderId: string)

  datatype MessagePage = MessagePage(messages: seq<Message>, hasMoreBefore: bool, hasMoreAfter: bool)

  const MaxFetchLimit := 100
  const MaxRetries := 10
  const FetchFailed: Status := Internal("Failed fetch from resonite cloud")

  function TypeToProto(t: MessageType): (r: ProtoMessageType)
    ensures r == PUnspecifiedType <==> t.OtherMessage?
  {
    match t
    case ObjectMessage => PObject
    case SoundMessage => PSound
    case TextMessage => PText
    case SessionInviteMessage => PSessionInvite
    case OtherMessage(_) => PUnspecifiedType
  }

  /** Each message is at least as new as the one after it. */
  predicate NewestFirst(s: seq<Message>) {
    forall i :: 0 < i < |s| ==> s[i - 1].sendTime >= s[i].sendTime
  }

  /** Some message carries the id, the source's `Any(m => m.Id == id)`. */
  predicate HasId(s: seq<Message>, id: string) {
    s != [] && (s[0].id == id || HasId(s[1..], id))
  }

  /** A message carries the id exactly when some position holds one that does. */
  lemma {:induction false} HasIdAt(s: seq<Message>, id: string)
    ensures HasId(s, id) <==> exists i :: 0 <= i < |s| && s[i].id == id
  {
    if s != [] {
      HasIdAt(s[1..], id);
      if HasId(s[1..], id) {
        var i :| 0 <= i < |s[1..]| && s[1..][i].id == id;
        assert s[i + 1].id == id;
      }
      if s[0].id != id && exists i :: 0 <= i < |s| && s[i].id == id {
        var i :| 0 <= i < |s| && s[i].id == id;
        assert s[1..][i - 1].id == id;
      }
    }
  }

  /** `FindIndex` by id. */
  function IndexOfId(s: seq<Message>, id: string): (r: Option<nat>)
    ensures r.Some? <==> HasId(s, id)
    ensures r.Some? ==> r.value < |s| && s[r.value].id == id && forall j :: 0 <= j < r.value ==> s[j].id != id
  {
    if s == [] then None
    else if s[0].id == id then Some(0)
    else
      var rest := IndexOfId(s[1..], id);
      assert forall j :: 1 <= j < |s| ==> s[j] == s[1..][j - 1];
      if rest.Some? then Some(rest.value + 1) else None
  }

  /** Places a message before the first message not newer than it. */
  function Insert(m: Message, s: seq<Message>): (r: seq<Message>)
    requires NewestFirst(s)
    ensures NewestFirst(r) && multiset(r) == multiset(s) + multiset{m}
    ensures |r| == |s| + 1 && (r[0] == m || (|s| > 0 && r[0] == s[0]))
  {
    if s == [] || m.sendTime >= s[0].sendTime then
      NewestFirstCons(m, s);
      [m] + s
    else
      NewestFirstTail(s);
      var rest := Insert(m, s[1..]);
      assert s == [s[0]] + s[1..];
      NewestFirstCons(s[0], rest);
      [s[0]] + rest
  }

  lemma NewestFirstCons(m: Message, s: seq<Message>)
    requires NewestFirst(s) && (s == [] || m.sendTime >= s[0].sendTime)
    ensures NewestFirst([m] + s)
  {
    var r := [m] + s;
    forall i | 0 < i < |r| ensures r[i - 1].sendTime >= r[i].sendTime {
      if i > 1 {
        assert r[i - 1] == s[i - 2] && r[i] == s[i - 1];
      }
    }
  }

  lemma NewestFirstTail(s: seq<Message>)
    requires NewestFirst(s) && s != []
    ensures NewestFirst(s[1..])
  {
    forall i | 0 < i < |s[1..]| ensures s[1..][i - 1].sendTime >= s[1..][i].sendTime {
      assert s[1..][i - 1] == s[i] && s[1..][i] == s[i + 1];
    }
  }

  /** The messages of `s` sent at time `t`, in their order in `s`. */
  function SentAt(s: seq<Message>, t: int): seq<Message> {
    if s == [] then [] else (if s[0].sendTime == t then [s[0]] else []) + SentAt(s[1..], t)
  }

  /** The inserted message comes before every message of its own send time. */
  lemma {:induction false} InsertKeepsOrder(m: Message, s: seq<Message>)
    requires NewestFirst(s)
    ensures forall t :: SentAt(Insert(m, s), t) == (if m.sendTime == t then [m] else []) + SentAt(s, t)
  {
    if s == [] || m.sendTime >= s[0].sendTime {
      assert ([m] + s)[1..] == s;
    } else {
      NewestFirstTail(s);
      var rest := Insert(m, s[1..]);
      InsertKeepsOrder(m, s[1..]);
      assert ([s[0]] + rest)[1..] == rest;
    }
  }

  /** `OrderByDescending(m => m.SendTime)`: newest first, a permutation, and
    * stable, so messages sent at the same time keep their order. */
  function SortNewestFirst(s: seq<Message>): (r: seq<Message>)
    ensures NewestFirst(r) && multiset(r) == multiset(s)
    ensures forall t :: SentAt(r, t) == SentAt(s, t)
  {
    if s == [] then []
    else
      assert s == [s[0]] + s[1..];
      var rest := SortNewestFirst(s[1..]);
      InsertKeepsOrder(s[0], rest);
      Insert(s[0], rest)
  }

  /** The messages of a batch sent before a time. */
  function OlderThan(batch: seq<Message>, time: int): (r: seq<Message>)
  {
    if batch == [] then []
    else (if batch[0].sendTime < time then [batch[0]] else []) + OlderThan(batch[1..], time)
  }

  /** The messages kept are of the batch and older than `time`. */
  lemma {:induction false} OlderThanWithin(batch: seq<Message>, time: int)
    ensures forall m :: m in OlderThan(batch, time) ==> m in batch && m.sendTime < time
  {
    if batch != [] {
      OlderThanWithin(batch[1..], time);
      assert forall m :: m in batch[1..] ==> m in batch;
    }
  }

  /** No message of the batch older than `time` is dropped. */
  lemma {:induction false} OlderThanKeeps(batch: seq<Message>, time: int, m: Message)
    requires m in batch && m.sendTime < time
    ensures m in OlderThan(batch, time)
  {
    if batch[0] != m {
      assert m in batch[1..];
      OlderThanKeeps(batch[1..], time, m);
    }
  }

  /** Whether the controller goes searching further back: a target is given
    * and it is not on a non-empty first page. */
  predicate Searches(first: seq<Message>, targetId: string): (r: bool)
    ensures r <==> targetId != "" && first != [] && forall i :: 0 <= i < |first| ==> first[i].id != targetId
  {
    HasIdAt(first, targetId);
    targetId != "" && !HasId(first, targetId) && |first| > 0
  }

  /** The message came from one of the first `n` searches. */
  predicate FetchedBy(retries: nat -> Option<seq<Message>>, n: nat, m: Message) {
    exists k :: 0 <= k < n && retries(k).Some? && m in retries(k).value
  }

  /** The number of messages asked of the cloud per fetch. */
  function FetchLimit(limit: int): (r: int)
    ensures r <= MaxFetchLimit
    ensures IsInt32(limit) && limit < Int32Max ==> r == Min(limit + 1, MaxFetchLimit)
    ensures limit == Int32Max ==> r == Int32Min
  {
    var probe := Wrap32(limit + 1);
    if probe < MaxFetchLimit then probe else MaxFetchLimit
  }

  /** One search after its batch arrived, as a value: an empty batch changes
    * nothing (the `continue`); otherwise the batch's messages older than the
    * oldest held are appended, the batch's size says whether the cloud may
    * hold older ones, and the search stops when the target is held or the
    * batch reaches back to the new oldest message. */
  function SearchStep(all: seq<Message>, moreOlder: bool, batch: seq<Message>, fetchLimit: int, targetId: string)
    : (r: (seq<Message>, bool, bool))
    requires |all| > 0
    ensures |all| <= |r.0|
  {
    if batch == [] then (all, moreOlder, false)
    else
      var all' := all + OlderThan(batch, all[|all| - 1].sendTime);
      var oldest' := all'[|all'| - 1].sendTime;
      (all', |batch| >= fetchLimit, HasId(all', targetId) || batch[0].sendTime >= oldest' || batch[|batch| - 1].sendTime >= oldest')
  }

  /** What one step does: the messages held are extended, by exactly the
    * batch's messages older than the oldest held; `moreOlder` is whether
    * the batch was full; the step stops exactly when the target is now held
    * or the batch's newest or oldest message is at least as new as the new
    * oldest one. An empty batch changes nothing and does not stop. */
  lemma SearchStepMeaning(all: seq<Message>, moreOlder: bool, batch: seq<Message>, fetchLimit: int, targetId: string)
    requires |all| > 0
    ensures var r := SearchStep(all, moreOlder, batch, fetchLimit, targetId);
      && |all| <= |r.0| && r.0[..|all|] == all
      && (batch == [] ==> r == (all, moreOlder, false))
      && (batch != [] ==> r.0[|all|..] == OlderThan(batch, all[|all| - 1].sendTime) && r.1 == (|batch| >= fetchLimit))
      && (batch != [] ==>
            (r.2 <==> HasId(r.0, targetId) || batch[0].sendTime >= r.0[|r.0| - 1].sendTime ||
                      batch[|batch| - 1].sendTime >= r.0[|r.0| - 1].sendTime))
  {
    if batch != [] {
      var all' := all + OlderThan(batch, all[|all| - 1].sendTime);
      assert all'[..|all|] == all && all'[|all|..] == OlderThan(batch, all[|all| - 1].sendTime);
    }
  }

  /** A step only adds messages. */
  lemma SearchStepExtends(all: seq<Message>, moreOlder: bool, batch: seq<Message>, fetchLimit: int, targetId: string)
    requires |all| > 0
    ensures all <= SearchStep(all, moreOlder, batch, fetchLimit, targetId).0
  {
    if batch != [] {
      var all' := all + OlderThan(batch, all[|all| - 1].sendTime);
      assert all'[..|all|] == all;
    }
  }

  /** The search further back from the `k`-th fetch on, as a value: after
    * ten fetches it ends with what it holds; a failed fetch fails it; a
    * step that stops ends it with that step's messages and `moreOlder`;
    * otherwise the next fetch follows. */
  function SearchFrom(all: seq<Message>, moreOlder: bool, retries: nat -> Option<seq<Message>>, k: nat,
                      fetchLimit: int, targetId: string): (r: Result<(seq<Message>, bool), Status>)
    requires |all| > 0
    ensures r.Err? ==> r.error == FetchFailed
    decreases MaxRetries - k
  {
    if k >= MaxRetries then Ok((all, moreOlder))
    else if retries(k).None? then Err(FetchFailed)
    else
      var step := SearchStep(all, moreOlder, retries(k).value, fetchLimit, targetId);
      if step.2 then Ok((step.0, step.1))
      else SearchFrom(step.0, step.1, retries, k + 1, fetchLimit, targetId)
  }

  /** The search only adds messages: what it ends with begins with what it
    * held. */
  lemma {:induction false} SearchFromExtends(all: seq<Message>, moreOlder: bool, retries: nat -> Option<seq<Message>>, k: nat,
                                             fetchLimit: int, targetId: string)
    requires |all| > 0
    ensures var r := SearchFrom(all, moreOlder, retries, k, fetchLimit, targetId);
      r.Ok? ==> all <= r.value.0
    decreases MaxRetries - k
  {
    if k < MaxRetries && retries(k).Some? {
      var step := SearchStep(all, moreOlder, retries(k).value, fetchLimit, targetId);
      SearchStepExtends(all, moreOlder, retries(k).value, fetchLimit, targetId);
      SearchAdvance(all, moreOlder, retries, k, fetchLimit, targetId, step.0, step.1, step.2);
      if !step.2 {
        SearchFromExtends(step.0, step.1, retries, k + 1, fetchLimit, targetId);
        var r := SearchFrom(step.0, step.1, retries, k + 1, fetchLimit, targetId);
      }
    }
  }

  /** One more fetch of the search: a failed one fails it, a step that
    * stops ends it, any other step goes on from the next fetch. */
  lemma SearchFromUnfold(all: seq<Message>, moreOlder: bool, retries: nat -> Option<seq<Message>>, k: nat,
                         fetchLimit: int, targetId: string)
    requires |all| > 0 && k < MaxRetries
    ensures retries(k).None? ==> SearchFrom(all, moreOlder, retries, k, fetchLimit, targetId) == Err(FetchFailed)
    ensures retries(k).Some? ==>
      var step := SearchStep(all, moreOlder, retries(k).value, fetchLimit, targetId);
      SearchFrom(all, moreOlder, retries, k, fetchLimit, targetId) ==
        if step.2 then Ok((step.0, step.1)) else SearchFrom(step.0, step.1, retries, k + 1, fetchLimit, targetId)
  {
  }

  /** The `k`-th fetch answered and its step gave `all'`, `moreOlder'` and
    * `stop`: the search from the `k`-th fetch ends there when it stops and
    * is the search from the next fetch otherwise. */
  lemma SearchAdvance(all: seq<Message>, moreOlder: bool, retries: nat -> Option<seq<Message>>, k: nat,
                      fetchLimit: int, targetId: string, all': seq<Message>, moreOlder': bool, stop: bool)
    requires |all| > 0 && k < MaxRetries && retries(k).Some?
    requires (all', moreOlder', stop) == SearchStep(all, moreOlder, retries(k).value, fetchLimit, targetId)
    ensures |all'| > 0
    ensures stop ==> SearchFrom(all, moreOlder, retries, k, fetchLimit, targetId) == Ok((all', moreOlder'))
    ensures !stop ==> SearchFrom(all, moreOlder, retries, k, fetchLimit, targetId) ==
                      SearchFrom(all', moreOlder', retries, k + 1, fetchLimit, targetId)
  {
  }

  /** The search fails only for a failed fetch: when every fetch from the
    * `k`-th on answers, it succeeds. */
  lemma {:induction false} SearchFromSucceeds(all: seq<Message>, moreOlder: bool, retries: nat -> Option<seq<Message>>, k: nat,
                                              fetchLimit: int, targetId: string)
    requires |all| > 0
    requires forall j :: k <= j < MaxRetries ==> retries(j).Some?
    ensures SearchFrom(all, moreOlder, retries, k, fetchLimit, targetId).Ok?
    decreases MaxRetries - k
  {
    if k < MaxRetries {
      var step := SearchStep(all, moreOlder, retries(k).value, fetchLimit, targetId);
      if !step.2 {
        SearchFromSucceeds(step.0, step.1, retries, k + 1, fetchLimit, targetId);
      }
    }
  }

  /** A target the search already holds is still held when it ends. */
  lemma SearchFromKeepsTarget(all: seq<Message>, moreOlder: bool, retries: nat -> Option<seq<Message>>, k: nat,
                              fetchLimit: int, targetId: string)
    requires |all| > 0 && HasId(all, targetId)
    ensures var r := SearchFrom(all, moreOlder, retries, k, fetchLimit, targetId);
      r.Ok? ==> HasId(r.value.0, targetId)
  {
    var r := SearchFrom(all, moreOlder, retries, k, fetchLimit, targetId);
    SearchFromExtends(all, moreOlder, retries, k, fetchLimit, targetId);
    if r.Ok? {
      HasIdAt(all, targetId);
      HasIdAt(r.value.0, targetId);
      var i :| 0 <= i < |all| && all[i].id == targetId;
      assert r.value.0[i] == all[i];
    }
  }

  /** Every message the search ends with was held before it or came from
    * one of the fetches from the `k`-th on. */
  lemma {:induction false} SearchFromProvenance(all: seq<Message>, moreOlder: bool, retries: nat -> Option<seq<Message>>, k: nat,
                                                fetchLimit: int, targetId: string)
    requires |all| > 0
    ensures var r := SearchFrom(all, moreOlder, retries, k, fetchLimit, targetId);
      r.Ok? ==> forall m :: m in r.value.0 ==> m in all || FetchedBy(retries, MaxRetries, m)
    decreases MaxRetries - k
  {
    if k < MaxRetries && retries(k).Some? {
      var batch := retries(k).value;
      var step := SearchStep(all, moreOlder, batch, fetchLimit, targetId);
      SearchStepMeaning(all, moreOlder, batch, fetchLimit, targetId);
      assert step.0 == all + step.0[|all|..];
      assert forall m :: m in step.0 ==> m in all || m in step.0[|all|..];
      assert forall m :: m in step.0 ==> m in all || FetchedBy(retries, MaxRetries, m) by {
        forall m | m in step.0 && m !in all
          ensures FetchedBy(retries, MaxRetries, m)
        {
          assert m in OlderThan(batch, all[|all| - 1].sendTime);
          OlderThanWithin(batch, all[|all| - 1].sendTime);
          assert 0 <= k < MaxRetries && retries(k).Some? && m in retries(k).value;
        }
      }
      if !step.2 {
        SearchFromProvenance(step.0, step.1, retries, k + 1, fetchLimit, targetId);
      }
    }
  }

  /** A target that a fetched batch holds among its messages older than the
    * oldest held is found: the search ends with it. */
  lemma SearchFromFindsTarget(all: seq<Message>, moreOlder: bool, retries: nat -> Option<seq<Message>>, k: nat,
                              fetchLimit: int, targetId: string, m: Message)
    requires |all| > 0 && k < MaxRetries && retries(k).Some?
    requires m in retries(k).value && m.id == targetId && m.sendTime < all[|all| - 1].sendTime
    ensures var r := SearchFrom(all, moreOlder, retries, k, fetchLimit, targetId);
      r.Ok? && HasId(r.value.0, targetId)
  {
    var batch := retries(k).value;
    var step := SearchStep(all, moreOlder, batch, fetchLimit, targetId);
    SearchStepMeaning(all, moreOlder, batch, fetchLimit, targetId);
    var older := OlderThan(batch, all[|all| - 1].sendTime);
    OlderThanKeeps(batch, all[|all| - 1].sendTime, m);
    var i :| 0 <= i < |older| && older[i] == m;
    assert step.0[|all| + i] == step.0[|all|..][i];
    HasIdAt(step.0, targetId);
  }

  /** The search further back: up to ten fetches, each adding the messages
    * of its batch older than the oldest message held, until the target is
    * held or a batch reaches back to the messages already held. Returns
    * the messages held, in the order they were added, and whether the last
    * batch was full. */
  method SearchOlder(first: seq<Message>, targetId: string, fetchLimit: int, retries: nat -> Option<seq<Message>>)
    returns (r: Result<(seq<Message>, bool), Status>)
    requires |first| > 0
    ensures r == SearchFrom(first, |first| >= fetchLimit, retries, 0, fetchLimit, targetId)
  {
    var all := first;
    var moreOlder := |first| >= fetchLimit;
    var oldest := all[|all| - 1].sendTime;
    var retry := 0;
    ghost var spec := SearchFrom(first, moreOlder, retries, 0, fetchLimit, targetId);
    while retry < MaxRetries
      invariant 0 <= retry <= MaxRetries
      invariant |all| > 0
      invariant oldest == all[|all| - 1].sendTime
      invariant SearchFrom(all, moreOlder, retries, retry, fetchLimit, targetId) == spec
    {
      var fetched := retries(retry);
      if fetched.None? {
        return Err(FetchFailed);
      }
      SearchFromUnfold(all, moreOlder, retries, retry, fetchLimit, targetId);
      var stop;
      all, oldest, moreOlder, stop := SearchBatch(all, oldest, moreOlder, fetched.value, fetchLimit, targetId);
      retry := retry + 1;
      if stop {
        assert Ok((all, moreOlder)) == spec;
        break;
      }
    }
    return Ok((all, moreOlder));
  }

  /** One search after its batch arrived: an empty batch changes nothing
    * (the `continue`); otherwise the batch's messages older than the oldest
    * held are added, and the search stops when the target is held or the
    * batch reaches back to the new oldest message. */
  method SearchBatch(all: seq<Message>, oldest: int, moreOlder: bool, batch: seq<Message>, fetchLimit: int, targetId: string)
    returns (all': seq<Message>, oldest': int, moreOlder': bool, stop: bool)
    requires |all| > 0 && oldest == all[|all| - 1].sendTime
    ensures |all| <= |all'| && all'[..|all|] == all && oldest' == all'[|all'| - 1].sendTime
    ensures batch == [] ==> all' == all && moreOlder' == moreOlder && !stop
    ensures batch != [] ==> all'[|all|..] == OlderThan(batch, oldest) && moreOlder' == (|batch| >= fetchLimit)
    ensures batch != [] ==> (stop <==> HasId(all', targetId) || batch[0].sendTime >= oldest' || batch[|batch| - 1].sendTime >= oldest')
    ensures (all', moreOlder', stop) == SearchStep(all, moreOlder, batch, fetchLimit, targetId)
  {
    if |batch| == 0 {
      return all, oldest, moreOlder, false;
    }
    var newest := batch[0].sendTime;
    var oldestInBatch := batch[|batch| - 1].sendTime;
    all' := all + OlderThan(batch, oldest);
    assert all'[..|all|] == all && all'[|all|..] == OlderThan(batch, oldest);
    oldest' := all'[|all'| - 1].sendTime;
    moreOlder' := |batch| >= fetchLimit;
    stop := false;
    if HasId(all', targetId) {
      stop := true;
    } else if newest >= oldest' || oldestInBatch >= oldest' {
      stop := true;
    }
  }

  /** The fetch phase of `GetContactMessages`, as a value: a failed first
    * fetch fails it; a first page that needs no search is the result, with
    * whether it was full; otherwise the search further back, sorted newest
    * first. `first` and `retries(k)` are the cloud's answers to the first
    * fetch and the k-th search, `None` for an error. */
  function Fetched(limit: int, targetId: string, first: Option<seq<Message>>, retries: nat -> Option<seq<Message>>)
    : (r: Result<(seq<Message>, bool), Status>)
    ensures r.Err? ==> r.error == FetchFailed
    ensures first.None? ==> r.Err?
    ensures first.Some? && !Searches(first.value, targetId) ==>
      r == Ok((first.value, |first.value| >= FetchLimit(limit)))
  {
    if first.None? then Err(FetchFailed)
    else if !Searches(first.value, targetId) then Ok((first.value, |first.value| >= FetchLimit(limit)))
    else
      var found := SearchFrom(first.value, |first.value| >= FetchLimit(limit), retries, 0, FetchLimit(limit), targetId);
      if found.Err? then Err(found.error) else Ok((SortNewestFirst(found.value.0), found.value.1))
  }

  /** The fetch phase keeps every message of the first page, adds only
    * fetched ones, sorts what a search gathered newest first, and fails
    * only for a failed fetch. */
  lemma FetchedProperties(limit: int, targetId: string, first: Option<seq<Message>>, retries: nat -> Option<seq<Message>>)
    ensures var r := Fetched(limit, targetId, first, retries);
      && (r.Ok? ==> multiset(first.value) <= multiset(r.value.0))
      && (r.Ok? ==> forall m :: m in r.value.0 ==> m in first.value || FetchedBy(retries, MaxRetries, m))
      && (r.Ok? && Searches(first.value, targetId) ==> NewestFirst(r.value.0))
      && (first.Some? && (forall j :: 0 <= j < MaxRetries ==> retries(j).Some?) ==> r.Ok?)
  {
    if first.Some? && Searches(first.value, targetId) {
      var fetchLimit := FetchLimit(limit);
      var moreOlder := |first.value| >= fetchLimit;
      var found := SearchFrom(first.value, moreOlder, retries, 0, fetchLimit, targetId);
      SearchFromExtends(first.value, moreOlder, retries, 0, fetchLimit, targetId);
      SearchFromProvenance(first.value, moreOlder, retries, 0, fetchLimit, targetId);
      if forall j :: 0 <= j < MaxRetries ==> retries(j).Some? {
        SearchFromSucceeds(first.value, moreOlder, retries, 0, fetchLimit, targetId);
      }
      if found.Ok? {
        var held := found.value.0;
        assert held[..|first.value|] == first.value;
        assert held == first.value + held[|first.value|..];
        var sorted := SortNewestFirst(held);
        forall m | m in sorted
          ensures m in held
        {
          assert m in multiset(sorted);
        }
      }
    }
  }

  /** The fetch phase of `GetContactMessages`: the newest page, then, when a
    * target is missing from it, the search further back and a sort newest
    * first. Returns the messages and whether the cloud may hold older
    * ones. */
  method FetchMessages(limit: int, targetId: string, first: Option<seq<Message>>, retries: nat -> Option<seq<Message>>)
    returns (r: Result<(seq<Message>, bool), Status>)
    requires IsInt32(limit)
    ensures r == Fetched(limit, targetId, first, retries)
    ensures r.Err? ==> r.error == FetchFailed
    ensures first.None? ==> r.Err?
    ensures first.Some? && !Searches(first.value, targetId) ==> r.Ok?
    ensures r.Ok? ==> multiset(first.value) <= multiset(r.value.0)
    ensures r.Ok? ==> forall m :: m in r.value.0 ==> m in first.value || FetchedBy(retries, MaxRetries, m)
    ensures r.Ok? && Searches(first.value, targetId) ==> NewestFirst(r.value.0)
    ensures r.Ok? && !Searches(first.value, targetId) ==>
      r.value == (first.value, |first.value| >= FetchLimit(limit))
  {
    FetchedProperties(limit, targetId, first, retries);
    if first.None? {
      return Err(FetchFailed);
    }
    var fetchLimit := FetchLimit(limit);
    if !Searches(first.value, targetId) {
      return Ok((first.value, |first.value| >= fetchLimit));
    }
    var found := SearchOlder(first.value, targetId, fetchLimit, retries);
    if found.Err? {
      return Err(found.error);
    }
    var (held, moreOlder) := found.value;
    var sorted := SortNewestFirst(held);
    return Ok((sorted, moreOlder));
  }

  /** The window `all[start..end]` cut to `limit`, and whether older messages
    * lie beyond it: cut off by the limit, further on in `all`, or possibly
    * in the cloud when the window reaches the end. */
  function Window(all: seq<Message>, start: nat, end: nat, limit: int, moreOlder: bool, olderKnown: bool, newerKnown: bool): (r: MessagePage)
    requires start <= end <= |all|
    ensures |r.messages| <= if limit < 0 then 0 else limit
    ensures |r.messages| <= end - start && r.messages == all[start..start + |r.messages|]
    ensures r.hasMoreAfter == newerKnown
    ensures !r.hasMoreBefore ==> !olderKnown && start + |r.messages| == |all| && !(moreOlder && end == |all|)
  {
    var filtered := all[start..end];
    var truncated := |filtered| > limit;
    var page := if truncated then Take(filtered, limit) else filtered;
    MessagePage(page, olderKnown || truncated || start + |page| < |all| || (moreOlder && end == |all|), newerKnown)
  }

  /** Where the window starts: after the `before_id` message when given. */
  function WindowStart(all: seq<Message>, beforeId: string): nat {
    if beforeId != "" && IndexOfId(all, beforeId).Some? then IndexOfId(all, beforeId).value + 1 else 0
  }

  /** The slicing phase of `GetContactMessages`. */
  function SliceMessages(all: seq<Message>, beforeId: string, afterId: string, limit: int, moreOlder: bool): (r: Result<MessagePage, Status>)
    ensures r.Err? <==>
      (beforeId != "" && !HasId(all, beforeId)) || (beforeId == "" && afterId != "" && !HasId(all, afterId))
    ensures r.Err? ==> r.error.InvalidArgument?
    ensures r.Ok? ==> |r.value.messages| <= if limit < 0 then 0 else limit
    ensures r.Ok? ==> WindowStart(all, beforeId) + |r.value.messages| <= |all|
    ensures r.Ok? ==> r.value.messages == all[WindowStart(all, beforeId)..WindowStart(all, beforeId) + |r.value.messages|]
    ensures r.Ok? ==> (r.value.hasMoreAfter <==> beforeId != "")
    ensures r.Ok? && beforeId == "" && afterId != "" ==>
      r.value.hasMoreBefore && |r.value.messages| <= IndexOfId(all, afterId).value
  {
    if beforeId != "" then
      var i := IndexOfId(all, beforeId);
      if i.None? then Err(InvalidArgument("Message with before_id '" + beforeId + "' not found"))
      else Ok(Window(all, i.value + 1, |all|, limit, moreOlder, false, true))
    else if afterId != "" then
      var i := IndexOfId(all, afterId);
      if i.None? then Err(InvalidArgument("Message with after_id '" + afterId + "' not found"))
      else Ok(Window(all, 0, i.value, limit, moreOlder, true, false))
    else
      Ok(Window(all, 0, |all|, limit, moreOlder, false, false))
  }

  /** A slice of newest-first messages is newest-first, and a slice that
    * says nothing older remains ends with the oldest message held. */
  lemma SliceProperties(all: seq<Message>, beforeId: string, afterId: string, limit: int, moreOlder: bool)
    requires SliceMessages(all, beforeId, afterId, limit, moreOlder).Ok?
    ensures var p := SliceMessages(all, beforeId, afterId, limit, moreOlder).value;
      && (NewestFirst(all) ==> NewestFirst(p.messages))
      && (!p.hasMoreBefore ==> !moreOlder && WindowStart(all, beforeId) + |p.messages| == |all|)
  {
    var p := SliceMessages(all, beforeId, afterId, limit, moreOlder).value;
    var s := WindowStart(all, beforeId);
    assert p.messages == all[s..s + |p.messages|];
    assert forall i :: 0 <= i < |p.messages| ==> p.messages[i] == all[s + i];
  }

  /** `GetContactMessages`: fetch, then slice. */
  method GetContactMessages(limit: int, beforeId: string, afterId: string,
                            first: Option<seq<Message>>, retries: nat -> Option<seq<Message>>)
    returns (r: Result<MessagePage, Status>)
    requires IsInt32(limit)
    ensures var f := Fetched(limit, if beforeId != "" then beforeId else afterId, first, retries);
      r == if f.Err? then Err(f.error) else SliceMessages(f.value.0, beforeId, afterId, limit, f.value.1)
    ensures r.Err? ==> r.error == FetchFailed || r.error.InvalidArgument?
    ensures first.None? ==> r == Err(FetchFailed)
    ensures r.Ok? ==> |r.value.messages| <= if limit < 0 then 0 else limit
    ensures r.Ok? ==> forall m :: m in r.value.messages ==> m in first.value || FetchedBy(retries, MaxRetries, m)
    ensures r.Ok? && (Searches(first.value, if beforeId != "" then beforeId else afterId) || NewestFirst(first.value)) ==>
      NewestFirst(r.value.messages)
    ensures r.Ok? ==> (r.value.hasMoreAfter <==> beforeId != "")
    ensures r.Ok? && beforeId == "" && afterId != "" ==> r.value.hasMoreBefore
    ensures first.Some? && beforeId == "" && afterId == "" ==> r.Ok?
  {
    var targetId := if beforeId != "" then beforeId else afterId;
    var fetched := FetchMessages(limit, targetId, first, retries);
    if fetched.Err? {
      return Err(fetched.error);
    }
    var (all, moreOlder) := fetched.value;
    r := SliceMessages(all, beforeId, afterId, limit, moreOlder);
    if r.Ok? {
      SliceProperties(all, beforeId, afterId, limit, moreOlder);
      var s := WindowStart(all, beforeId);
      assert forall m :: m in r.value.messages ==> m in all;
    }
  }

  // ---------------------------------------------------------------------
  // Host settings

  /** `AutoSpawnItems.Select(Uri.TryCreate or throw).ToList()`: every item
    * parsed, in order, or the first one that does not parse. */
  function ParseItems(items: seq<string>, parse: string -> Option<CloudUtils.Uri>): (r: Result<seq<CloudUtils.Uri>, Status>)
    ensures r.Ok? ==> |r.value| == |items| && forall i :: 0 <= i < |items| ==> parse(items[i]) == Some(r.value[i])
    ensures r.Err? <==> exists i :: 0 <= i < |items| && parse(items[i]).None?
    ensures r.Err? ==> exists i ::
      && 0 <= i < |items| && parse(items[i]).None?
      && r.error == InvalidArgument("Invalid item URL: " + items[i])
      && forall j :: 0 <= j < i ==> parse(items[j]).Some?
  {
    if items == [] then Ok([])
    else if parse(items[0]).None? then Err(InvalidArgument("Invalid item URL: " + items[0]))
    else
      var rest := ParseItems(items[1..], parse);
      assert forall j :: 1 <= j < |items| ==> items[j] == items[1..][j - 1];
      if rest.Err? then
        var i :| 0 <= i < |items[1..]| && parse(items[1..][i]).None?
          && rest.error == InvalidArgument("Invalid item URL: " + items[1..][i])
          && forall j :: 0 <= j < i ==> parse(items[1..][j]).Some?;
        assert parse(items[i + 1]).None? && rest.error == InvalidArgument("Invalid item URL: " + items[i + 1]);
        Err(rest.error)
      else
        Ok([parse(items[0]).value] + rest.value)
  }

  /** The controller with the state it reads and writes: the shutdown flag,
    * the engine calls it has issued, the running sessions (as the world
    * service lists them) and the host settings it updates (the runner's
    * tick rate, the asset transferer's override, the engine's user name
    * override and the world service's auto-spawn items). */
  class Controller {
    var isShutdownRequested: bool
    var engineCalls: seq<EngineCall>
    var sessions: map<string, Models.RunningSession>
    var tickRate: int
    var maxConcurrentTransfers: Option<int>
    var usernameOverride: Option<string>
    var autoSpawnItems: seq<CloudUtils.Uri>

    /** Shutdown has been requested of the engine exactly when the flag is
      * set, and then exactly once. */
    predicate ShutdownIssuedOnce()
      reads this
    {
      engineCalls == if isShutdownRequested then [CancelShutdown, RequestShutdown] else []
    }

    constructor (sessions: map<string, Models.RunningSession>, tickRate: int)
      ensures !isShutdownRequested && ShutdownIssuedOnce()
      ensures this.sessions == sessions && this.tickRate == tickRate
      ensures maxConcurrentTransfers.None? && usernameOverride.None? && autoSpawnItems == []
    {
      isShutdownRequested := false;
      engineCalls := [];
      this.sessions := sessions;
      this.tickRate := tickRate;
      maxConcurrentTransfers := None;
      usernameOverride := None;
      autoSpawnItems := [];
    }

    /** `Shutdown`: the first call sets the flag and cancels, then requests,
      * the engine's shutdown; later calls do nothing. */
    method Shutdown()
      requires ShutdownIssuedOnce()
      modifies this`isShutdownRequested, this`engineCalls
      ensures isShutdownRequested && ShutdownIssuedOnce()
      ensures old(isShutdownRequested) ==> engineCalls == old(engineCalls)
    {
      if !isShutdownRequested {
        isShutdownRequested := true;
        engineCalls := engineCalls + [CancelShutdown, RequestShutdown];
      }
    }

    /** `GetSession`, and the lookup every per-session RPC starts with. */
    function FindSession(id: string): (r: Result<Models.RunningSession, Status>)
      reads this
      ensures r.Ok? <==> id in sessions
      ensures r.Ok? ==> r.value == sessions[id]
      ensures r.Err? ==> r.error == SessionNotFound
    {
      if id in sessions then Ok(sessions[id]) else Err(SessionNotFound)
    }

    /** `StartWorld`: refused once shutdown is requested, and without a URL
      * or preset; `start` is the world service's start for the converted
      * parameters (`None` when it returns null). */
    method StartWorld(request: RpcConversion.ProtoParameters, defaultMaxUsers: int,
                      start: StartupParameters -> Option<Models.RunningSession>)
      returns (r: Result<Models.RunningSession, Status>)
      ensures isShutdownRequested ==> r == Err(Unavailable("Already shutting down"))
      ensures !isShutdownRequested && request.loadWorldUrl.None? && request.loadWorldPresetName.None? ==>
        r == Err(InvalidArgument("Require load_world_url or load_world_preset_name!"))
      ensures r.Ok? ==> exists p :: RpcConversion.ParametersToResonite(request, defaultMaxUsers) == Ok(p) && start(p) == Some(r.value)
      ensures r.Err? && r.error.Internal? ==>
        && r.error.message == "Failed open world!"
        && RpcConversion.ParametersToResonite(request, defaultMaxUsers).Ok?
        && start(RpcConversion.ParametersToResonite(request, defaultMaxUsers).value).None?
    {
      if isShutdownRequested {
        return Err(Unavailable("Already shutting down"));
      }
      if request.loadWorldUrl.None? && request.loadWorldPresetName.None? {
        return Err(InvalidArgument("Require load_world_url or load_world_preset_name!"));
      }
      var converted := RpcConversion.ParametersToResonite(request, defaultMaxUsers);
      if converted.Err? {
        return Err(Unknown(converted.error));
      }
      var session := start(converted.value);
      if session.None? {
        return Err(Internal("Failed open world!"));
      }
      return Ok(session.value);
    }

    /** The objects an RPC on the session may change. */
    /** The session registered under the id, if any, as a frame. */
    function SessionAt(id: string): set<Models.RunningSession>
      reads this
    {
      if id in sessions then {sessions[id]} else {}
    }

    /** The world of the session registered under the id, if any, as a frame. */
    function WorldAt(id: string): set<World>
      reads this
    {
      if id in sessions then {sessions[id].instance} else {}
    }

    /** `AllowUserToJoin` */
    method AllowUserToJoin(id: string, userId: string) returns (r: Result<(), Status>)
      modifies SessionAt(id)`startInfo, WorldAt(id)`joinAllowedUserIds
      ensures r.Ok? <==> id in sessions
      ensures r.Err? ==> r.error == SessionNotFound
      ensures r.Ok? ==> sessions[id].instance.joinAllowedUserIds == old(sessions[id].instance.joinAllowedUserIds) + [userId]
      ensures r.Ok? ==>
        sessions[id].startInfo == old(sessions[id].startInfo).(joinAllowedUserIds := old(sessions[id].startInfo.joinAllowedUserIds) + [userId])
    {
      if id !in sessions {
        return Err(SessionNotFound);
      }
      sessions[id].AllowUserToJoin(userId);
      return Ok(());
    }

    /** `UpdateSessionParameters`: the listing and timer fields are written
      * first, then the checked fields in order until a check fails; the
      * deny message and tags only when all pass. A rejection keeps what was
      * already written. */
    method UpdateSessionParameters(u: SessionUpdate, cloud: Cloud) returns (r: Result<(), Status>)
      modifies SessionAt(u.sessionId)`idleRestartInterval, SessionAt(u.sessionId)`autosaveInterval
      modifies WorldAt(u.sessionId)`name, WorldAt(u.sessionId)`description, WorldAt(u.sessionId)`maxUsers
      modifies WorldAt(u.sessionId)`accessLevel, WorldAt(u.sessionId)`hideFromListing
      modifies WorldAt(u.sessionId)`useCustomJoinVerifier, WorldAt(u.sessionId)`mobileFriendly
      modifies WorldAt(u.sessionId)`awayKickEnabled, WorldAt(u.sessionId)`awayKickMinutes
      modifies WorldAt(u.sessionId)`saveOnExit, WorldAt(u.sessionId)`forceFullUpdateCycle
      modifies WorldAt(u.sessionId)`correspondingWorldId, WorldAt(u.sessionId)`roleCloudVariable
      modifies WorldAt(u.sessionId)`allowUserCloudVariable, WorldAt(u.sessionId)`denyUserCloudVariable
      modifies WorldAt(u.sessionId)`requiredUserJoinCloudVariable
      modifies WorldAt(u.sessionId)`requiredUserJoinCloudVariableDenyMessage, WorldAt(u.sessionId)`tags
      ensures u.sessionId !in sessions ==> r == Err(SessionNotFound)
      ensures u.sessionId in sessions ==>
        && (r.Ok? <==> PassedChecks(u, cloud) == 5)
        && (r.Err? ==> r.error == Rejection(PassedChecks(u, cloud)))
        && SettingsOf(sessions[u.sessionId]) == Updated(old(SettingsOf(sessions[u.sessionId])), u, cloud)
    {
      if u.sessionId !in sessions {
        return Err(SessionNotFound);
      }
      r := ApplyUpdate(sessions[u.sessionId], u, cloud);
    }

    /** `UpdateUserRole`: the first role with the name (ignoring case),
      * lowered to the host's role when it ranks higher, becomes the named
      * non-host user's role and default role. Returns the role's name. */
    method UpdateUserRole(id: string, roleName: string, userId: Option<string>, userName: Option<string>)
      returns (r: Result<string, Status>)
      modifies WorldAt(id)`users, WorldAt(id)`defaultUserPermissions
      ensures id !in sessions ==> r == Err(SessionNotFound)
      ensures id in sessions ==> var w := sessions[id].instance;
        var role := FindRole(old(w.roles), roleName);
        var guest := FindGuest(old(w.users), userId, userName);
        && (role.None? ==> r == Err(InvalidArgument("Invalid role name")))
        && (role.Some? && guest.None? ==> r == Err(InvalidArgument("The user does not appear to be in a session!")))
        && (r.Ok? <==> role.Some? && guest.Some?)
        && (r.Ok? ==>
              var granted := FilterRole(old(w.roles)[role.value], old(w.hostRole));
              && r.value == granted.name
              && w.users == old(w.users)[guest.value := old(w.users)[guest.value].(role := Some(granted))]
              && w.defaultUserPermissions ==
                   (if old(w.users)[guest.value].userId.Some?
                    then old(w.defaultUserPermissions)[old(w.users)[guest.value].userId.value := granted]
                    else old(w.defaultUserPermissions)))
        && (r.Err? ==> w.users == old(w.users) && w.defaultUserPermissions == old(w.defaultUserPermissions))
    {
      if id !in sessions {
        return Err(SessionNotFound);
      }
      var w := sessions[id].instance;
      var role := FindRole(w.roles, roleName);
      if role.None? {
        return Err(InvalidArgument("Invalid role name"));
      }
      var granted := FilterRole(w.roles[role.value], w.hostRole);
      var guest := FindGuest(w.users, userId, userName);
      if guest.None? {
        return Err(InvalidArgument("The user does not appear to be in a session!"));
      }
      var user := w.users[guest.value];
      w.users := w.users[guest.value := user.(role := Some(granted))];
      if user.userId.Some? {
        w.defaultUserPermissions := w.defaultUserPermissions[user.userId.value := granted];
      }
      return Ok(granted.name);
    }

    /** `UpdateHostSettings`: a positive tick rate, a positive transfer limit
      * and a non-empty user name are taken; the auto-spawn list is replaced
      * only when every item parses as an absolute URI. The fields before a
      * rejected item stay written. */
    method UpdateHostSettings(newTickRate: Option<int>, newMaxTransfers: Option<int>, newUsername: Option<string>,
                              updateItems: bool, items: seq<string>, parse: string -> Option<CloudUtils.Uri>)
      returns (r: Result<(), Status>)
      modifies this`tickRate, this`maxConcurrentTransfers, this`usernameOverride, this`autoSpawnItems
      ensures tickRate == if newTickRate.Some? && newTickRate.value > 0 then newTickRate.value else old(tickRate)
      ensures maxConcurrentTransfers == if newMaxTransfers.Some? && newMaxTransfers.value > 0 then newMaxTransfers else old(maxConcurrentTransfers)
      ensures usernameOverride == if newUsername.Some? && |newUsername.value| > 0 then newUsername else old(usernameOverride)
      ensures r.Err? <==> updateItems && ParseItems(items, parse).Err?
      ensures r.Err? ==> r == Err(ParseItems(items, parse).error) && autoSpawnItems == old(autoSpawnItems)
      ensures r.Ok? ==> autoSpawnItems == if updateItems then ParseItems(items, parse).value else old(autoSpawnItems)
    {
      if newTickRate.Some? && newTickRate.value > 0 {
        tickRate := newTickRate.value;
      }
      if newMaxTransfers.Some? && newMaxTransfers.value > 0 {
        maxConcurrentTransfers := newMaxTransfers;
      }
      if newUsername.Some? && |newUsername.value| > 0 {
        usernameOverride := newUsername;
      }
      if updateItems {
        var parsed := ParseItems(items, parse);
        if parsed.Err? {
          return Err(parsed.error);
        }
        autoSpawnItems := parsed.value;
      }
      return Ok(());
    }
  }
}
