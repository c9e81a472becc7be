/** `Headless/Extensions/RpcConversionExtensions.cs`: the translations between
  * the engine's startup parameters and access levels and their gRPC messages,
  * and the gRPC view of a live session. */
module RpcConversion {
  import opened Wrappers
  import opened Engine
  import Models
  import CloudUtils

  /** `Headless.Rpc.AccessLevel`; a protobuf enum may also carry an unknown
    * number. */
  datatype ProtoAccessLevel =
    | PUnspecified | PPrivate | PLan | PContacts | PContactsPlus | PRegisteredUsers | PAnyone
    | PUnnamed(code: int)

  datatype ProtoRecordId = ProtoRecordId(id: string, ownerId: string)

  datatype ProtoUserRole = ProtoUserRole(userName: string, role: string)

  /** `Headless.Rpc.WorldStartupParameters`. Fields with presence are
    * `Option`s (an unset string reads as `""`); repeated fields are
    * sequences; `float` away-kick minutes are whole numbers. */
  datatype ProtoParameters = ProtoParameters(
    name: Option<string>,
    customSessionId: Option<string>,
    description: Option<string>,
    maxUsers: Option<int>,
    accessLevel: ProtoAccessLevel,
    autoInviteUsernames: seq<string>,
    tags: seq<string>,
    hideFromPublicListing: bool,
    defaultUserRoles: seq<ProtoUserRole>,
    awayKickMinutes: int,
    idleRestartIntervalSeconds: int,
    saveOnExit: bool,
    autoSaveIntervalSeconds: int,
    autoSleep: bool,
    forcePort: int,
    parentSessionIds: seq<string>,
    autoRecover: bool,
    forcedRestartIntervalSeconds: int,
    inviteRequestHandlerUsernames: seq<string>,
    useCustomJoinVerifier: bool,
    mobileFriendly: bool,
    keepOriginalRoles: bool,
    loadWorldUrl: Option<string>,
    loadWorldPresetName: Option<string>,
    overrideCorrespondingWorldId: Option<ProtoRecordId>,
    roleCloudVariable: Option<string>,
    allowUserCloudVariable: Option<string>,
    denyUserCloudVariable: Option<string>,
    requiredUserJoinCloudVariable: Option<string>,
    requiredUserJoinCloudVariableDenyMessage: Option<string>,
    autoInviteMessage: Option<string>)

  datatype ConversionError =
    | NullPresetName        // a null preset name assigned to the message (`ArgumentNullException`)
    | DuplicateRoleUser(userName: string)  // `ToDictionary` over a repeated user name
    | ThumbnailError(e: CloudUtils.ResolveError)

  // ---- access levels -----------------------------------------------------

  function AccessLevelToProto(level: SessionAccessLevel): (r: ProtoAccessLevel)
    ensures level.UnnamedLevel? <==> r == PUnspecified
  {
    match level
    case Private => PPrivate
    case LAN => PLan
    case Contacts => PContacts
    case ContactsPlus => PContactsPlus
    case RegisteredUsers => PRegisteredUsers
    case Anyone => PAnyone
    case UnnamedLevel(_) => PUnspecified
  }

  function AccessLevelToResonite(level: ProtoAccessLevel): (r: SessionAccessLevel)
    ensures !r.UnnamedLevel?
    ensures level.PUnspecified? || level.PUnnamed? ==> r == Private
  {
    match level
    case PPrivate => Private
    case PLan => LAN
    case PContacts => Contacts
    case PContactsPlus => ContactsPlus
    case PRegisteredUsers => RegisteredUsers
    case PAnyone => Anyone
    case _ => Private
  }

  /** The six named levels survive both round trips. */
  lemma AccessLevelRoundTrips(level: SessionAccessLevel, proto: ProtoAccessLevel)
    ensures !level.UnnamedLevel? ==> AccessLevelToResonite(AccessLevelToProto(level)) == level
    ensures !proto.PUnspecified? && !proto.PUnnamed? ==> AccessLevelToProto(AccessLevelToResonite(proto)) == proto
  {
  }

  // ---- startup parameters ------------------------------------------------

  /** An unset or empty message string is absent on the engine side. */
  function NonEmpty(s: Option<string>): (r: Option<string>)
    ensures r.Some? <==> s.Some? && s.value != ""
    ensures r.Some? ==> r == s
  {
    if s.Some? && s.value != "" then s else None
  }

  /** A zero interval or away-kick on the wire means "disabled", which the
    * engine spells -1. */
  function ZeroIsDisabled(x: int): (r: int)
    ensures x == 0 ==> r == -1
    ensures x != 0 ==> r == x
  {
    if x == 0 then -1 else x
  }

  /** `(ushort)` of a positive wire port, which keeps the low 16 bits. */
  function PortToResonite(port: int): (r: Option<UShort>)
    ensures r.None? <==> port <= 0
    ensures 0 < port < 0x1_0000 ==> r == Some(port as UShort)
  {
    if port > 0 then Some((port % 0x1_0000) as UShort) else None
  }

  function RolesToProto(roles: seq<UserRole>): (r: seq<ProtoUserRole>)
    ensures |r| == |roles|
    ensures forall i :: 0 <= i < |roles| ==> r[i] == ProtoUserRole(roles[i].userName, roles[i].roleName)
  {
    seq(|roles|, i requires 0 <= i < |roles| => ProtoUserRole(roles[i].userName, roles[i].roleName))
  }

  /** The user names of a role list are pairwise different (a dictionary). */
  predicate DistinctUsers(roles: seq<UserRole>) {
    forall i, j :: 0 <= i < j < |roles| ==> roles[i].userName != roles[j].userName
  }

  /** `ToDictionary(r => r.UserName, r => r.Role)`: every entry in order, or
    * the first user name that repeats an earlier one. */
  function RolesToResonite(roles: seq<ProtoUserRole>): (r: Result<seq<UserRole>, ConversionError>)
    ensures r.Ok? ==> |r.value| == |roles| && DistinctUsers(r.value)
    ensures r.Ok? ==> forall i :: 0 <= i < |roles| ==> r.value[i] == UserRole(roles[i].userName, roles[i].role)
    ensures r.Err? ==>
      r.error.DuplicateRoleUser? && exists i, j :: 0 <= i < j < |roles| && roles[i].userName == roles[j].userName == r.error.userName
  {
    if roles == [] then Ok([])
    else
      var init := roles[..|roles| - 1];
      var last := roles[|roles| - 1];
      match RolesToResonite(init)
      case Err(e) => Err(e)
      case Ok(rs) =>
        if exists i :: 0 <= i < |rs| && rs[i].userName == last.userName then Err(DuplicateRoleUser(last.userName))
        else Ok(rs + [UserRole(last.userName, last.role)])
  }

  /** Converting an engine dictionary and back gives it back. */
  lemma {:induction false} RolesRoundTrip(roles: seq<UserRole>)
    requires DistinctUsers(roles)
    ensures RolesToResonite(RolesToProto(roles)) == Ok(roles)
  {
    if roles != [] {
      var init := roles[..|roles| - 1];
      var protos := RolesToProto(roles);
      assert protos[..|protos| - 1] == RolesToProto(init);
      assert DistinctUsers(init);
      RolesRoundTrip(init);
      var last := protos[|protos| - 1];
      assert last == ProtoUserRole(roles[|roles| - 1].userName, roles[|roles| - 1].roleName);
      assert !exists i :: 0 <= i < |init| && init[i].userName == last.userName;
      assert init + [UserRole(last.userName, last.role)] == roles;
    }
  }

  /** The message `ToProto` fills in, field by field. */
  function ProtoFields(p: StartupParameters): ProtoParameters {
    ProtoParameters(
      name := p.sessionName,
      customSessionId := p.customSessionId,
      description := p.description,
      maxUsers := Some(p.maxUsers),
      accessLevel := AccessLevelToProto(p.accessLevel),
      autoInviteUsernames := p.autoInviteUsernames.GetOr([]),
      tags := p.tags.GetOr([]),
      hideFromPublicListing := p.hideFromPublicListing.GetOr(false),
      defaultUserRoles := RolesToProto(p.defaultUserRoles.GetOr([])),
      awayKickMinutes := p.awayKickMinutes,
      idleRestartIntervalSeconds := p.idleRestartInterval,
      saveOnExit := p.saveOnExit,
      autoSaveIntervalSeconds := p.autoSaveInterval,
      autoSleep := p.autoSleep,
      forcePort := if p.forcePort.Some? then p.forcePort.value as int else 0,
      parentSessionIds := p.parentSessionIds.GetOr([]),
      autoRecover := p.autoRecover,
      forcedRestartIntervalSeconds := p.forcedRestartInterval,
      inviteRequestHandlerUsernames := p.inviteRequestHandlerUsernames.GetOr([]),
      useCustomJoinVerifier := p.useCustomJoinVerifier,
      mobileFriendly := p.mobileFriendly,
      keepOriginalRoles := p.keepOriginalRoles,
      loadWorldUrl := p.loadWorldUrl,
      loadWorldPresetName := if p.loadWorldUrl.Some? then None else p.loadWorldPresetName,
      overrideCorrespondingWorldId :=
        if p.overrideCorrespondingWorldId.Some?
        then Some(ProtoRecordId(p.overrideCorrespondingWorldId.value.id, p.overrideCorrespondingWorldId.value.ownerId))
        else None,
      roleCloudVariable := p.roleCloudVariable,
      allowUserCloudVariable := p.allowUserCloudVariable,
      denyUserCloudVariable := p.denyUserCloudVariable,
      requiredUserJoinCloudVariable := p.requiredUserJoinCloudVariable,
      requiredUserJoinCloudVariableDenyMessage := p.requiredUserJoinCloudVariableDenyMessage,
      autoInviteMessage := p.autoInviteMessage)
  }

  /** `WorldStartupParameters.ToProto`. A missing URL sends the preset name,
    * which must then be non-null. */
  function ParametersToProto(p: StartupParameters): (r: Result<ProtoParameters, ConversionError>)
    ensures r.Err? <==> p.loadWorldUrl.None? && p.loadWorldPresetName.None?
    ensures r.Ok? ==>
      && r.value.loadWorldUrl == p.loadWorldUrl
      && r.value.loadWorldPresetName == (if p.loadWorldUrl.Some? then None else p.loadWorldPresetName)
  {
    if p.loadWorldUrl.None? && p.loadWorldPresetName.None? then Err(NullPresetName)
    else Ok(ProtoFields(p))
  }

  /** Null on the engine side becomes the wire default: port 0, not hidden,
    * empty lists; the user limit is always sent. */
  lemma ToProtoDefaults(p: StartupParameters)
    requires ParametersToProto(p).Ok?
    ensures ParametersToProto(p).value.forcePort == if p.forcePort.Some? then p.forcePort.value as int else 0
    ensures ParametersToProto(p).value.maxUsers == Some(p.maxUsers)
    ensures ParametersToProto(p).value.hideFromPublicListing == (p.hideFromPublicListing == Some(true))
    ensures p.tags.None? ==> ParametersToProto(p).value.tags == []
  {
  }

  /** The parameters `ToResonite` fills in, given the converted roles. */
  function EngineFields(p: ProtoParameters, roles: seq<UserRole>, defaultMaxUsers: int): StartupParameters {
    StartupParameters(
      isEnabled := true,
      sessionName := NonEmpty(p.name),
      customSessionId := NonEmpty(p.customSessionId),
      description := NonEmpty(p.description),
      maxUsers := if p.maxUsers.Some? then p.maxUsers.value else defaultMaxUsers,
      accessLevel := AccessLevelToResonite(p.accessLevel),
      useCustomJoinVerifier := p.useCustomJoinVerifier,
      hideFromPublicListing := Some(p.hideFromPublicListing),
      tags := Some(p.tags),
      mobileFriendly := p.mobileFriendly,
      loadWorldUrl := NonEmpty(p.loadWorldUrl),
      loadWorldPresetName := if NonEmpty(p.loadWorldUrl).Some? then None else NonEmpty(p.loadWorldPresetName),
      overrideCorrespondingWorldId :=
        if p.overrideCorrespondingWorldId.Some?
        then Some(RecordId(p.overrideCorrespondingWorldId.value.ownerId, p.overrideCorrespondingWorldId.value.id))
        else None,
      forcePort := PortToResonite(p.forcePort),
      keepOriginalRoles := p.keepOriginalRoles,
      defaultUserRoles := Some(roles),
      roleCloudVariable := NonEmpty(p.roleCloudVariable),
      allowUserCloudVariable := NonEmpty(p.allowUserCloudVariable),
      denyUserCloudVariable := NonEmpty(p.denyUserCloudVariable),
      requiredUserJoinCloudVariable := NonEmpty(p.requiredUserJoinCloudVariable),
      requiredUserJoinCloudVariableDenyMessage := NonEmpty(p.requiredUserJoinCloudVariableDenyMessage),
      awayKickMinutes := ZeroIsDisabled(p.awayKickMinutes),
      parentSessionIds := Some(p.parentSessionIds),
      autoInviteUsernames := Some(p.autoInviteUsernames),
      inviteRequestHandlerUsernames := Some(p.inviteRequestHandlerUsernames),
      autoInviteMessage := NonEmpty(p.autoInviteMessage),
      saveAsOwner := None,
      autoRecover := p.autoRecover,
      idleRestartInterval := ZeroIsDisabled(p.idleRestartIntervalSeconds),
      forcedRestartInterval := ZeroIsDisabled(p.forcedRestartIntervalSeconds),
      saveOnExit := p.saveOnExit,
      autoSaveInterval := ZeroIsDisabled(p.autoSaveIntervalSeconds),
      autoSleep := p.autoSleep,
      waitForLogin := false,
      joinAllowedUserIds := [])
  }

  /** `Rpc.WorldStartupParameters.ToResonite`. Fields it leaves alone keep
    * the values of `new WorldStartupParameters()`: null, no login wait,
    * nobody admitted in advance, and the engine's default user limit. The
    * only failure is a user named twice in the default roles. */
  function ParametersToResonite(p: ProtoParameters, defaultMaxUsers: int): (r: Result<StartupParameters, ConversionError>)
    ensures r.Err? <==> RolesToResonite(p.defaultUserRoles).Err?
    ensures r.Ok? ==> r.value.isEnabled && !r.value.accessLevel.UnnamedLevel?
    ensures r.Ok? ==> r.value.maxUsers == if p.maxUsers.Some? then p.maxUsers.value else defaultMaxUsers
    ensures r.Ok? ==> r.value.loadWorldUrl == NonEmpty(p.loadWorldUrl)
    ensures r.Ok? ==> r.value.loadWorldPresetName == if NonEmpty(p.loadWorldUrl).Some? then None else NonEmpty(p.loadWorldPresetName)
    ensures r.Ok? ==> r.value.idleRestartInterval != 0 && r.value.autoSaveInterval != 0 && r.value.forcedRestartInterval != 0
    ensures r.Ok? ==> r.value.awayKickMinutes != 0
  {
    match RolesToResonite(p.defaultUserRoles)
    case Err(e) => Err(e)
    case Ok(roles) =>
      Ok(EngineFields(p, roles, defaultMaxUsers))
  }

  /** Engine parameters sent over the wire and read back: named access
    * levels, the user limit, lists and roles survive; a zero interval or
    * away-kick comes back as -1, port 0 as no port, an empty string as null,
    * and a preset next to a URL is lost. */
  lemma {:induction false} EngineRoundTrip(p: StartupParameters, defaultMaxUsers: int)
    requires ParametersToProto(p).Ok?
    requires DistinctUsers(p.defaultUserRoles.GetOr([]))
    ensures var q := ParametersToResonite(ParametersToProto(p).value, defaultMaxUsers);
      && q.Ok?
      && q.value.accessLevel == (if p.accessLevel.UnnamedLevel? then Private else p.accessLevel)
      && q.value.maxUsers == p.maxUsers
      && q.value.idleRestartInterval == ZeroIsDisabled(p.idleRestartInterval)
      && q.value.autoSaveInterval == ZeroIsDisabled(p.autoSaveInterval)
      && q.value.forcedRestartInterval == ZeroIsDisabled(p.forcedRestartInterval)
      && q.value.awayKickMinutes == ZeroIsDisabled(p.awayKickMinutes)
      && q.value.forcePort == (if p.forcePort == Some(0 as UShort) then None else p.forcePort)
      && q.value.sessionName == NonEmpty(p.sessionName)
      && q.value.loadWorldUrl == NonEmpty(p.loadWorldUrl)
      && q.value.loadWorldPresetName == (if p.loadWorldUrl.Some? then None else NonEmpty(p.loadWorldPresetName))
      && q.value.defaultUserRoles == Some(p.defaultUserRoles.GetOr([]))
      && q.value.tags == Some(p.tags.GetOr([]))
      && q.value.hideFromPublicListing == Some(p.hideFromPublicListing == Some(true))
  {
    RolesRoundTrip(p.defaultUserRoles.GetOr([]));
    AccessLevelRoundTrips(p.accessLevel, PUnspecified);
  }

  /** Wire parameters read by the engine and sent back: named access levels,
    * lists, roles and non-zero intervals survive; the user limit is always
    * present afterwards, a zero interval comes back as -1, an empty string as
    * unset, and a port is kept modulo 2^16. */
  lemma {:induction false} ProtoRoundTrip(m: ProtoParameters, defaultMaxUsers: int)
    requires ParametersToResonite(m, defaultMaxUsers).Ok?
    requires NonEmpty(m.loadWorldUrl).Some? || NonEmpty(m.loadWorldPresetName).Some?
    ensures ParametersToProto(ParametersToResonite(m, defaultMaxUsers).value).Ok?
    ensures var back := ParametersToProto(ParametersToResonite(m, defaultMaxUsers).value).value;
      && back.accessLevel == (if m.accessLevel.PUnspecified? || m.accessLevel.PUnnamed? then PPrivate else m.accessLevel)
      && back.maxUsers == Some(if m.maxUsers.Some? then m.maxUsers.value else defaultMaxUsers)
      && back.idleRestartIntervalSeconds == ZeroIsDisabled(m.idleRestartIntervalSeconds)
      && back.autoSaveIntervalSeconds == ZeroIsDisabled(m.autoSaveIntervalSeconds)
      && back.forcedRestartIntervalSeconds == ZeroIsDisabled(m.forcedRestartIntervalSeconds)
      && back.forcePort == (if m.forcePort > 0 then m.forcePort % 0x1_0000 else 0)
      && back.name == NonEmpty(m.name)
      && back.loadWorldUrl == NonEmpty(m.loadWorldUrl)
      && back.loadWorldPresetName == (if NonEmpty(m.loadWorldUrl).Some? then None else NonEmpty(m.loadWorldPresetName))
      && back.defaultUserRoles == m.defaultUserRoles
      && back.tags == m.tags && back.parentSessionIds == m.parentSessionIds
  {
    var roles := RolesToResonite(m.defaultUserRoles).value;
    assert RolesToProto(roles) == m.defaultUserRoles;
    AccessLevelRoundTrips(Private, m.accessLevel);
  }

  // ---- sessions ----------------------------------------------------------

  /** `Headless.Rpc.Session` */
  datatype ProtoSession = ProtoSession(
    id: string,
    name: string,
    description: string,
    tags: seq<string>,
    accessLevel: ProtoAccessLevel,
    startupParameters: ProtoParameters,
    usersCount: int,
    maxUsers: int,
    sessionUrl: string,
    startedAt: Time,
    awayKickMinutes: int,
    idleRestartIntervalSeconds: int,
    saveOnExit: bool,
    autoSaveIntervalSeconds: int,
    hideFromPublicListing: bool,
    canSave: bool,
    worldUrl: Option<string>,
    thumbnailUrl: Option<string>,
    lastSavedAt: Option<Time>)

  /** `Models.RunningSession.ToProto`: the session info of the live world,
    * the regenerated start parameters, and the session's own timers.
    * `canSave` is `Userspace.ShouldSave`, `recordUrl` the world's record URL,
    * `thumbnail` the session info's thumbnail, `goUrl` the session link
    * builder and `parseUri` is `new Uri`. The start parameters fail first,
    * then the thumbnail. */
  function SessionToProto(session: Models.RunningSession, resolver: CloudUtils.Resolver, canSave: bool,
                          recordUrl: Option<string>, thumbnail: Option<string>, goUrl: string -> string,
                          parseUri: string -> Option<CloudUtils.Uri>): (r: Result<ProtoSession, ConversionError>)
    reads session, session.instance, resolver
    ensures r.Err? <==> ParametersToProto(session.GenerateStartupParameters()).Err? || resolver.ResolveURLString(thumbnail, parseUri).Err?
    ensures ParametersToProto(session.GenerateStartupParameters()).Err? ==> r == Err(NullPresetName)
    ensures r.Ok? ==>
      && r.value.id == session.instance.sessionId
      && r.value.name == session.instance.name.GetOr("<Empty Name>")
      && r.value.description == session.instance.description.GetOr("")
      && r.value.awayKickMinutes == (if session.instance.awayKickEnabled then session.instance.awayKickMinutes else -1)
      && r.value.lastSavedAt == session.lastSavedAt
      && r.value.worldUrl == recordUrl
      && r.value.thumbnailUrl == resolver.ResolveURLString(thumbnail, parseUri).value
  {
    var instance := session.instance;
    match ParametersToProto(session.GenerateStartupParameters())
    case Err(e) => Err(e)
    case Ok(parameters) =>
      match resolver.ResolveURLString(thumbnail, parseUri)
      case Err(e) => Err(ThumbnailError(e))
      case Ok(thumbnailUrl) =>
        Ok(ProtoSession(
          id := instance.sessionId,
          name := instance.name.GetOr("<Empty Name>"),
          description := instance.description.GetOr(""),
          tags := instance.tags,
          accessLevel := AccessLevelToProto(instance.accessLevel),
          startupParameters := parameters,
          usersCount := instance.userCount,
          maxUsers := instance.maxUsers,
          sessionUrl := goUrl(instance.sessionId),
          startedAt := instance.sessionBeginTime,
          awayKickMinutes := if instance.awayKickEnabled then instance.awayKickMinutes else -1,
          idleRestartIntervalSeconds := TotalSeconds(session.idleRestartInterval),
          saveOnExit := instance.saveOnExit,
          autoSaveIntervalSeconds := TotalSeconds(session.autosaveInterval),
          hideFromPublicListing := instance.hideFromListing,
          canSave := canSave,
          worldUrl := recordUrl,
          thumbnailUrl := thumbnailUrl,
          lastSavedAt := session.lastSavedAt))
  }

  /** The session view and the start parameters inside it describe the same
    * settings: access level, user limit, away-kick, the two intervals, save
    * on exit and the listing flag agree. */
  lemma SessionViewIsConsistent(session: Models.RunningSession, resolver: CloudUtils.Resolver, canSave: bool,
                                recordUrl: Option<string>, thumbnail: Option<string>, goUrl: string -> string,
                                parseUri: string -> Option<CloudUtils.Uri>)
    requires SessionToProto(session, resolver, canSave, recordUrl, thumbnail, goUrl, parseUri).Ok?
    ensures var v := SessionToProto(session, resolver, canSave, recordUrl, thumbnail, goUrl, parseUri).value;
      && v.startupParameters.accessLevel == v.accessLevel
      && v.startupParameters.maxUsers == Some(v.maxUsers)
      && v.startupParameters.awayKickMinutes == v.awayKickMinutes
      && v.startupParameters.idleRestartIntervalSeconds == v.idleRestartIntervalSeconds
      && v.startupParameters.autoSaveIntervalSeconds == v.autoSaveIntervalSeconds
      && v.startupParameters.saveOnExit == v.saveOnExit
      && v.startupParameters.hideFromPublicListing == v.hideFromPublicListing
      && v.startupParameters.tags == v.tags
  {
  }
}
