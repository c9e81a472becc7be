/** The older gRPC surface of the host (`HeadlessControl`): list the sessions,
  * start a world from a URL or a preset, and shut down. A session is shown
  * through its world (`WorldInstance`); the world service's opening of a
  * world is a parameter, the world it produced or null. */
module HeadlessControlService {
  import opened Wrappers
  import opened Engine
  import opened Text
  import WorldQueries
  import Sessions

  /** `Headless.Rpc.AccessLevel` of this service; a protobuf enum may also
    * carry an unnamed number. */
  datatype LegacyAccessLevel =
    | Unknown | LegacyPrivate | Lan | LegacyContacts | LegacyContactsPlus | LegacyRegisteredUsers | LegacyAnyone
    | UnnamedLegacyLevel(code: int)

  /** The request's `switch`: anything but the six named levels opens a private session. */
  function ToSessionAccessLevel(level: LegacyAccessLevel): (r: SessionAccessLevel)
    ensures !r.UnnamedLevel?
    ensures level.Unknown? || level.UnnamedLegacyLevel? ==> r == Private
  {
    match level
    case LegacyPrivate => Private
    case Lan => LAN
    case LegacyContacts => Contacts
    case LegacyContactsPlus => ContactsPlus
    case LegacyRegisteredUsers => RegisteredUsers
    case LegacyAnyone => Anyone
    case _ => Private
  }

  /** The reply's `switch`: a level without a name shows as `Unknown`. */
  function ToLegacyAccessLevel(level: SessionAccessLevel): (r: LegacyAccessLevel)
    ensures !r.UnnamedLegacyLevel?
    ensures r.Unknown? <==> level.UnnamedLevel?
  {
    match level
    case Private => LegacyPrivate
    case LAN => Lan
    case Contacts => LegacyContacts
    case ContactsPlus => LegacyContactsPlus
    case RegisteredUsers => LegacyRegisteredUsers
    case Anyone => LegacyAnyone
    case UnnamedLevel(_) => Unknown
  }

  /** The six named levels survive both round trips. */
  lemma AccessLevelRoundTrips(level: SessionAccessLevel, legacy: LegacyAccessLevel)
    ensures !level.UnnamedLevel? ==> ToSessionAccessLevel(ToLegacyAccessLevel(level)) == level
    ensures !legacy.Unknown? && !legacy.UnnamedLegacyLevel? ==> ToLegacyAccessLevel(ToSessionAccessLevel(legacy)) == legacy
  {
  }

  /** `StartWorldRequest.Parameters`; protobuf strings are never null. */
  datatype LegacyParameters = LegacyParameters(
    sessionName: string,
    customSessionId: string,
    description: string,
    maxUsers: int,
    accessLevel: LegacyAccessLevel,
    loadWorldUrl: string,
    loadWorldPresetName: string,
    autoInviteUsernames: seq<string>)

  /** The members of `WorldStartupParameters` the handler sets. */
  datatype WorldStart = WorldStart(
    sessionName: string,
    customSessionId: string,
    description: string,
    maxUsers: int,
    accessLevel: SessionAccessLevel,
    loadWorldUrl: Option<string>,
    loadWorldPresetName: Option<string>,
    autoInviteUsernames: seq<string>)

  /** The gRPC status a handler fails with; `Unknown` is what an exception
    * the handler does not catch becomes. */
  datatype RpcStatus = InvalidArgument(detail: string) | Internal(detail: string) | UnknownStatus

  const RequireWorldMessage: string := "Require load_world_url or load_world_preset_name!"
  const FailedOpenMessage: string := "Failed open world!"

  /** Blank text counts as absent. */
  function NonBlank(s: string): (r: Option<string>)
    ensures r.None? <==> IsNullOrWhiteSpace(Some(s))
    ensures r.Some? ==> r.value == s
  {
    if IsNullOrWhiteSpace(Some(s)) then None else Some(s)
  }

  /** The parameters `StartWorld` hands to the world service, or the
    * `InvalidArgument` status when neither a URL nor a preset is given. */
  function BuildParameters(p: LegacyParameters): (r: Result<WorldStart, RpcStatus>)
    ensures r.Err? <==> IsNullOrWhiteSpace(Some(p.loadWorldUrl)) && IsNullOrWhiteSpace(Some(p.loadWorldPresetName))
    ensures r.Err? ==> r.error == InvalidArgument(RequireWorldMessage)
    ensures r.Ok? ==> r.value.loadWorldUrl == NonBlank(p.loadWorldUrl) && r.value.loadWorldPresetName == NonBlank(p.loadWorldPresetName)
    ensures r.Ok? ==> r.value.accessLevel == ToSessionAccessLevel(p.accessLevel)
    ensures r.Ok? ==> (r.value.sessionName == p.sessionName && r.value.customSessionId == p.customSessionId &&
      r.value.description == p.description && r.value.maxUsers == p.maxUsers &&
      r.value.autoInviteUsernames == p.autoInviteUsernames)
  {
    var url := NonBlank(p.loadWorldUrl);
    var preset := NonBlank(p.loadWorldPresetName);
    if url.None? && preset.None? then Err(InvalidArgument(RequireWorldMessage))
    else Ok(WorldStart(p.sessionName, p.customSessionId, p.description, p.maxUsers,
      ToSessionAccessLevel(p.accessLevel), url, preset, p.autoInviteUsernames))
  }

  /** Every world the handler asks for names something to load that is not
    * blank, and has a named access level. */
  lemma StartedWorldsHaveASource(p: LegacyParameters)
    requires BuildParameters(p).Ok?
    ensures var s := BuildParameters(p).value;
      (s.loadWorldUrl.Some? && !AllWhiteSpace(s.loadWorldUrl.value)) ||
      (s.loadWorldPresetName.Some? && !AllWhiteSpace(s.loadWorldPresetName.value))
    ensures !BuildParameters(p).value.accessLevel.UnnamedLevel?
  {
  }

  /** `Rpc.User` */
  datatype LegacyUser = LegacyUser(id: string, name: string)

  /** `Rpc.Session` */
  datatype LegacySession = LegacySession(
    id: string, name: string, description: string, accessLevel: LegacyAccessLevel,
    users: seq<LegacyUser>, thumbnailUrl: string)

  const EmptyName: string := "<Empty Name>"

  /** The `Select` over `AllUsers`: a null id or name cannot be assigned to a
    * protobuf string, so such a user makes the conversion throw. */
  function ConvertUsers(users: seq<User>): (r: Option<seq<LegacyUser>>)
    ensures r.None? <==> exists i :: 0 <= i < |users| && (users[i].userId.None? || users[i].userName.None?)
    ensures r.Some? ==> (|r.value| == |users| &&
      forall i :: 0 <= i < |users| ==> r.value[i] == LegacyUser(users[i].userId.value, users[i].userName.value))
  {
    if users == [] then Some([])
    else
      var rest := ConvertUsers(users[1..]);
      if users[0].userId.None? || users[0].userName.None? || rest.None? then
        assert rest.None? ==> exists i :: 0 <= i < |users| && (users[i].userId.None? || users[i].userName.None?) by {
          if rest.None? {
            var j :| 0 <= j < |users[1..]| && (users[1..][j].userId.None? || users[1..][j].userName.None?);
            assert users[j + 1] == users[1..][j];
          }
        }
        None
      else
        assert forall i :: 1 <= i < |users| ==> users[i] == users[1..][i - 1];
        Some([LegacyUser(users[0].userId.value, users[0].userName.value)] + rest.value)
  }

  /** Some user of the world has a null id or name. */
  predicate HasNullUser(w: World)
    reads w
  {
    exists i :: 0 <= i < |w.users| && (w.users[i].userId.None? || w.users[i].userName.None?)
  }

  /** `ConvertSession`: the session id, the name or `"<Empty Name>"`, the
    * description or `""`, the level, the users in order and an empty
    * thumbnail. */
  function ConvertSession(w: World): (r: Result<LegacySession, RpcStatus>)
    reads w
    ensures r.Err? <==> HasNullUser(w)
    ensures r.Err? ==> r.error == UnknownStatus
    ensures r.Ok? ==> r.value.id == w.sessionId && r.value.thumbnailUrl == ""
    ensures r.Ok? ==> r.value.name == (if w.name.Some? then w.name.value else EmptyName)
    ensures r.Ok? ==> r.value.description == (if w.description.Some? then w.description.value else "")
    ensures r.Ok? ==> r.value.accessLevel == ToLegacyAccessLevel(w.accessLevel)
    ensures r.Ok? ==> (|r.value.users| == |w.users| &&
      forall i :: 0 <= i < |w.users| ==> r.value.users[i].id == w.users[i].userId.value && r.value.users[i].name == w.users[i].userName.value)
  {
    var users := ConvertUsers(w.users);
    if users.None? then Err(UnknownStatus)
    else Ok(LegacySession(w.sessionId, w.name.GetOr(EmptyName), w.description.GetOr(""),
      ToLegacyAccessLevel(w.accessLevel), users.value, ""))
  }

  /** A session shown by this service and started again with what it shows
    * keeps its name, description and named access level. */
  lemma ShownSessionRestarts(w: World, url: string)
    requires !HasNullUser(w) && !w.accessLevel.UnnamedLevel? && !IsNullOrWhiteSpace(Some(url))
    ensures var s := ConvertSession(w).value;
      var p := LegacyParameters(s.name, "", s.description, 0, s.accessLevel, url, "", []);
      BuildParameters(p).Ok? && BuildParameters(p).value.accessLevel == w.accessLevel &&
      BuildParameters(p).value.description == w.description.GetOr("") &&
      (w.name.Some? ==> BuildParameters(p).value.sessionName == w.name.value)
  {
    AccessLevelRoundTrips(w.accessLevel, Unknown);
  }

  /** `ListSessions`: every registered session, converted; one that cannot be
    * converted fails the whole call. */
  function ListSessions(service: Sessions.WorldService): (r: Result<set<LegacySession>, RpcStatus>)
    reads service, WorldQueries.GetWorlds(service)
    ensures r.Err? <==> exists w :: w in WorldQueries.GetWorlds(service) && HasNullUser(w)
    ensures r.Ok? ==> forall w :: w in WorldQueries.GetWorlds(service) ==> ConvertSession(w).Ok? && ConvertSession(w).value in r.value
    ensures r.Ok? ==> forall s :: s in r.value ==> exists w :: w in WorldQueries.GetWorlds(service) && ConvertSession(w) == Ok(s)
  {
    var worlds := WorldQueries.GetWorlds(service);
    if exists w :: w in worlds && HasNullUser(w) then Err(UnknownStatus)
    else Ok(set w | w in worlds :: ConvertSession(w).value)
  }

  /** `StartWorld`, given what the world service returned for the parameters
    * built from the request (`started`, null when the world did not open). */
  function StartWorld(request: LegacyParameters, started: Option<World>): (r: Result<LegacySession, RpcStatus>)
    reads if started.Some? then {started.value} else {}
    ensures BuildParameters(request).Err? ==> r == Err(InvalidArgument(RequireWorldMessage))
    ensures BuildParameters(request).Ok? && started.None? ==> r == Err(Internal(FailedOpenMessage))
    ensures BuildParameters(request).Ok? && started.Some? ==> r == ConvertSession(started.value)
  {
    var parameters := BuildParameters(request);
    if parameters.Err? then Err(parameters.error)
    else if started.None? then Err(Internal(FailedOpenMessage))
    else ConvertSession(started.value)
  }
}
