/** The parts of FrooxEngine and SkyFrost the headless host touches, reduced to
  * the state the host reads and writes: startup parameters, records, users,
  * roles, the slot tree and the world object itself. Engine behaviour the host
  * only calls (opening, saving, networking) is not modelled here; it enters the
  * other modules as explicit outcomes. */
module Engine {
  import opened Wrappers

  /** `DateTimeOffset` values are ticks since `DateTimeOffset.MinValue`, which is tick 0. */
  type Time = nat

  const MinTime: Time := 0

  const TicksPerSecond: int := 10_000_000

  /** `TimeSpan.FromSeconds` of a whole number of seconds, in ticks. */
  function FromSeconds(seconds: int): int {
    seconds * TicksPerSecond
  }

  /** `TimeSpan.TotalSeconds` of a span held in ticks (exact for whole seconds). */
  function TotalSeconds(span: int): int {
    span / TicksPerSecond
  }

  lemma TotalSecondsFromSeconds(seconds: int)
    ensures TotalSeconds(FromSeconds(seconds)) == seconds
  {
  }

  /** `SkyFrost.Base.SessionAccessLevel`; a C# enum may also hold an unnamed value. */
  datatype SessionAccessLevel =
    | Private | LAN | Contacts | ContactsPlus | RegisteredUsers | Anyone
    | UnnamedLevel(code: int)

  /** `ushort` */
  newtype UShort = x: int | 0 <= x < 0x1_0000

  /** `SkyFrost.Base.RecordId` */
  datatype RecordId = RecordId(ownerId: string, id: string)

  /** The world's `CorrespondingRecord`: who owns it (null when created while
    * logged out) and its id. */
  datatype WorldRecord = WorldRecord(ownerId: Option<string>, recordId: string)

  /** A dictionary entry `userName -> roleName` of `DefaultUserRoles`, in
    * insertion order. */
  datatype UserRole = UserRole(userName: string, roleName: string)

  /** `SkyFrost.Base.WorldStartupParameters` together with the
    * `JoinAllowedUserIds` list that `ExtendedWorldStartupParameters` adds.
    * Nullable members are `Option`s; `double` members are whole numbers. */
  datatype StartupParameters = StartupParameters(
    isEnabled: bool,
    sessionName: Option<string>,
    customSessionId: Option<string>,
    description: Option<string>,
    maxUsers: int,
    accessLevel: SessionAccessLevel,
    useCustomJoinVerifier: bool,
    hideFromPublicListing: Option<bool>,
    tags: Option<seq<string>>,
    mobileFriendly: bool,
    loadWorldUrl: Option<string>,
    loadWorldPresetName: Option<string>,
    overrideCorrespondingWorldId: Option<RecordId>,
    forcePort: Option<UShort>,
    keepOriginalRoles: bool,
    defaultUserRoles: Option<seq<UserRole>>,
    roleCloudVariable: Option<string>,
    allowUserCloudVariable: Option<string>,
    denyUserCloudVariable: Option<string>,
    requiredUserJoinCloudVariable: Option<string>,
    requiredUserJoinCloudVariableDenyMessage: Option<string>,
    awayKickMinutes: int,
    parentSessionIds: Option<seq<string>>,
    autoInviteUsernames: Option<seq<string>>,
    inviteRequestHandlerUsernames: Option<seq<string>>,
    autoInviteMessage: Option<string>,
    saveAsOwner: Option<string>,
    autoRecover: bool,
    idleRestartInterval: int,
    forcedRestartInterval: int,
    saveOnExit: bool,
    autoSaveInterval: int,
    autoSleep: bool,
    waitForLogin: bool,
    joinAllowedUserIds: seq<string>)

  /** `World.WorldState` */
  datatype WorldState = Initializing | Running | Failed

  /** A permission set of the world; a higher rank grants more. */
  datatype Role = Role(name: string, rank: int)

  /** `FrooxEngine.User` as seen by the host. */
  datatype User = User(userId: Option<string>, userName: Option<string>, isHost: bool, isLocal: bool, role: Option<Role>)

  /** A contact of the logged-in account; `iconUrl` is `Profile?.IconUrl`,
    * none when the contact has no profile or the profile no icon. */
  datatype Contact = Contact(userName: string, userId: string, iconUrl: Option<string>)

  /** What the cloud services and the engine's validators answer the host:
    * the logged-in user (none when not logged in), its contacts in the order
    * `Contacts.FindContact` visits them, `Users.GetUserByName`,
    * `SessionInfo.IsValidSessionId`, `SessionInfo.GetCustomSessionIdOwner`,
    * `CloudVariableHelper.IsValidPath` and `RecordId.IsValid`. */
  datatype Cloud = Cloud(
    currentUserId: Option<string>,
    contacts: seq<Contact>,
    userIdByName: string -> Option<string>,
    isValidSessionId: string -> bool,
    customSessionIdOwner: string -> Option<string>,
    isValidPath: string -> bool,
    isValidRecordId: RecordId -> bool)
  {
    predicate LoggedIn() { currentUserId.Some? }
  }

  /** `RefID`: the engine allocates these and looks objects up by them. */
  type RefId = nat

  /** Float vectors and quaternions; their arithmetic is not modelled. */
  datatype Vec3 = Vec3(x: int, y: int, z: int)
  datatype Quat = Quat(x: int, y: int, z: int, w: int)

  /** What a sync member is: a value field (its value's text), a reference
    * (its target, if any) or something else (a list, a bag, ...). */
  datatype MemberKind =
    | FieldMember(value: Option<string>)
    | RefMember(target: Option<RefId>)
    | OtherMember

  /** A sync member and the name it is registered under on its owner. */
  datatype SyncMember = SyncMember(name: string, kind: MemberKind)

  /** A .NET type: `Name`, `FullName` (null for some generic types), `Namespace`. */
  datatype TypeInfo = TypeInfo(name: string, fullName: Option<string>, namespace: Option<string>, isGeneric: bool, genericDefinition: Option<string>)

  datatype Component = Component(refId: RefId, typeInfo: TypeInfo, members: seq<SyncMember>)

  /** The fields of a slot that the query layer reads or sets. The engine keeps
    * local and global transforms consistent; here they are two stored values. */
  datatype SlotAttrs = SlotAttrs(
    name: Option<string>,
    active: bool,
    localPosition: Vec3, globalPosition: Vec3,
    localRotation: Quat, globalRotation: Quat,
    localScale: Vec3, globalScale: Vec3)

  /** A slot of the scene graph with its own sync members, components and
    * ordered children. */
  datatype Slot = Slot(refId: RefId, attrs: SlotAttrs, members: seq<SyncMember>, components: seq<Component>, children: seq<Slot>)

  /** A FrooxEngine world as far as the host reads and writes it. */
  class World {
    const sessionId: string
    /** `World.Time.LocalSessionBeginTime` */
    const sessionBeginTime: Time

    var state: WorldState
    var isDestroyed: bool
    var userCount: int
    var name: Option<string>
    var description: Option<string>
    var tags: seq<string>
    var accessLevel: SessionAccessLevel
    var useCustomJoinVerifier: bool
    var hideFromListing: bool
    var maxUsers: int
    var mobileFriendly: bool
    var forceFullUpdateCycle: bool
    var saveOnExit: bool
    var correspondingWorldId: Option<RecordId>
    var awayKickEnabled: bool
    var awayKickMinutes: int
    var parentSessionIds: seq<string>
    /** `Permissions.DefaultRoleCloudVariable` */
    var roleCloudVariable: Option<string>
    var allowUserCloudVariable: Option<string>
    var denyUserCloudVariable: Option<string>
    var requiredUserJoinCloudVariable: Option<string>
    var requiredUserJoinCloudVariableDenyMessage: Option<string>
    /** The user ids that forward invite requests. */
    var inviteRequestHandlers: seq<string>
    /** The user ids `AllowUserToJoin` has admitted, in call order. */
    var joinAllowedUserIds: seq<string>
    /** `Permissions.DefaultUserPermissions`: user id to role. */
    var defaultUserPermissions: map<string, Role>
    /** `Permissions.Roles` */
    var roles: seq<Role>
    /** `HostUser.Role` */
    var hostRole: Role
    var users: seq<User>
    var correspondingRecord: Option<WorldRecord>
    var root: Slot

    constructor (sessionId: string, sessionBeginTime: Time, state: WorldState, root: Slot, hostRole: Role)
      ensures this.sessionId == sessionId && this.sessionBeginTime == sessionBeginTime
      ensures this.state == state && this.root == root && this.hostRole == hostRole
      ensures !isDestroyed && userCount == 1 && users == [] && roles == [hostRole]
      ensures correspondingRecord.None? && defaultUserPermissions == map[]
      ensures inviteRequestHandlers == [] && joinAllowedUserIds == [] && parentSessionIds == []
    {
      this.sessionId := sessionId;
      this.sessionBeginTime := sessionBeginTime;
      this.state := state;
      this.root := root;
      this.hostRole := hostRole;
      isDestroyed := false;
      userCount := 1;
      name := None;
      description := None;
      tags := [];
      accessLevel := Private;
      useCustomJoinVerifier := false;
      hideFromListing := false;
      maxUsers := 0;
      mobileFriendly := false;
      forceFullUpdateCycle := false;
      saveOnExit := false;
      correspondingWorldId := None;
      awayKickEnabled := false;
      awayKickMinutes := -1;
      parentSessionIds := [];
      roleCloudVariable := None;
      allowUserCloudVariable := None;
      denyUserCloudVariable := None;
      requiredUserJoinCloudVariable := None;
      requiredUserJoinCloudVariableDenyMessage := None;
      inviteRequestHandlers := [];
      joinAllowedUserIds := [];
      defaultUserPermissions := map[];
      roles := [hostRole];
      users := [];
      correspondingRecord := None;
    }

    /** `World.Destroy()` */
    method Destroy()
      modifies this`isDestroyed
      ensures isDestroyed
    {
      isDestroyed := true;
    }

    /** `World.AllowUserToJoin(userId)` */
    method AllowUserToJoin(userId: string)
      modifies this`joinAllowedUserIds
      ensures joinAllowedUserIds == old(joinAllowedUserIds) + [userId]
    {
      joinAllowedUserIds := joinAllowedUserIds + [userId];
    }
  }

  /** `Permissions.FilterRole`: a role above the host's role is replaced by
    * the host's role. */
  function FilterRole(role: Role, hostRole: Role): (r: Role)
    ensures r == role || r == hostRole
    ensures r.rank <= role.rank && r.rank <= hostRole.rank
    ensures role.rank <= hostRole.rank ==> r == role
  {
    if role.rank > hostRole.rank then hostRole else role
  }
}
