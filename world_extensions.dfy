/** Applying startup parameters to a freshly opened world
  * (`Headless/Extensions/WorldExtensions.cs`): plain field assignments, the
  * parent-session filter, invite-request handlers, default permissions,
  * cloud variables and automatic join permissions. The asynchronous parts run
  * here in program order; the messages the real code sends are not modelled. */
module WorldExtensions {
  import opened Wrappers
  import opened Text
  import opened Engine

  // ---- parent sessions ---------------------------------------------------

  /** The ids `valid` accepts, in input order. */
  function Filter(ids: seq<string>, valid: string -> bool): (r: seq<string>)
    ensures |r| <= |ids|
    ensures forall x :: x in r <==> x in ids && valid(x)
  {
    if ids == [] then []
    else
      var init := ids[..|ids| - 1];
      assert ids == init + [ids[|ids| - 1]];
      Filter(init, valid) + if valid(ids[|ids| - 1]) then [ids[|ids| - 1]] else []
  }

  /** Filtering an id list of the engine's own making changes nothing. */
  lemma {:induction false} FilterAllValid(ids: seq<string>, valid: string -> bool)
    requires forall i :: 0 <= i < |ids| ==> valid(ids[i])
    ensures Filter(ids, valid) == ids
  {
    if ids != [] {
      var init := ids[..|ids| - 1];
      var last := ids[|ids| - 1];
      forall i | 0 <= i < |init|
        ensures valid(init[i])
      {
        assert init[i] == ids[i];
      }
      FilterAllValid(init, valid);
      FilterLast(ids, valid);
      assert ids == init + [last];
    }
  }

  lemma FilterLast(ids: seq<string>, valid: string -> bool)
    requires ids != []
    ensures Filter(ids, valid) ==
      Filter(ids[..|ids| - 1], valid) + if valid(ids[|ids| - 1]) then [ids[|ids| - 1]] else []
  {
  }

  /** `ConfigureParentSessions`: a missing list leaves the world's parents as
    * they are; otherwise they become exactly the valid ids, in order. */
  method ConfigureParentSessions(world: World, p: StartupParameters, cloud: Cloud)
    modifies world`parentSessionIds
    ensures world.parentSessionIds ==
      if p.parentSessionIds.None? then old(world.parentSessionIds)
      else Filter(p.parentSessionIds.value, cloud.isValidSessionId)
  {
    if p.parentSessionIds.None? {
      return;
    }
    var ids := p.parentSessionIds.value;
    var sessionIds: seq<string> := [];
    for i := 0 to |ids|
      invariant sessionIds == Filter(ids[..i], cloud.isValidSessionId)
    {
      assert ids[..i + 1][..i] == ids[..i];
      if cloud.isValidSessionId(ids[i]) {
        sessionIds := sessionIds + [ids[i]];
      }
    }
    assert ids[..|ids|] == ids;
    world.parentSessionIds := sessionIds;
  }

  // ---- invite request handlers -------------------------------------------

  /** `Contacts.FindContact` on the user name, ignoring case. */
  function FindContact(contacts: seq<Contact>, userName: string): (r: Option<Contact>)
    ensures r.Some? ==> r.value in contacts && EqualsIgnoreCase(r.value.userName, userName)
    ensures r.None? <==> forall c :: c in contacts ==> !EqualsIgnoreCase(c.userName, userName)
  {
    if contacts == [] then None
    else if EqualsIgnoreCase(contacts[0].userName, userName) then Some(contacts[0])
    else FindContact(contacts[1..], userName)
  }

  /** The user ids added as invite handlers for `usernames`, given the
    * handlers present when the work began: names already present and names
    * without a contact add nothing. */
  function HandlersAdded(present: seq<string>, usernames: seq<string>, contacts: seq<Contact>): seq<string> {
    if usernames == [] then []
    else
      var u := usernames[|usernames| - 1];
      var c := FindContact(contacts, u);
      HandlersAdded(present, usernames[..|usernames| - 1], contacts)
        + if u in present || c.None? then [] else [c.value.userId]
  }

  /** Name `n`, when it is not yet present, adds the handler `id`. */
  predicate AddsHandler(present: seq<string>, n: string, contacts: seq<Contact>, id: string) {
    n !in present && FindContact(contacts, n).Some? && FindContact(contacts, n).value.userId == id
  }

  /** Exactly the contacts of the listed names not yet present become handlers. */
  lemma {:induction false} HandlersAddedExactly(present: seq<string>, usernames: seq<string>, contacts: seq<Contact>, id: string)
    ensures id in HandlersAdded(present, usernames, contacts) <==>
      exists i :: 0 <= i < |usernames| && AddsHandler(present, usernames[i], contacts, id)
  {
    if usernames != [] {
      var k := |usernames| - 1;
      var init := usernames[..k];
      HandlersAddedExactly(present, init, contacts, id);
      HandlersAddedLast(present, usernames, contacts, id);
      if id in HandlersAdded(present, usernames, contacts) {
        var i := k;
        if id in HandlersAdded(present, init, contacts) {
          i :| 0 <= i < |init| && AddsHandler(present, init[i], contacts, id);
          assert usernames[i] == init[i];
        }
        assert AddsHandler(present, usernames[i], contacts, id);
      } else {
        forall i | 0 <= i < |usernames|
          ensures !AddsHandler(present, usernames[i], contacts, id)
        {
          if i < k {
            assert init[i] == usernames[i];
          }
        }
      }
    }
  }

  lemma HandlersAddedLast(present: seq<string>, usernames: seq<string>, contacts: seq<Contact>, id: string)
    requires usernames != []
    ensures var k := |usernames| - 1;
      id in HandlersAdded(present, usernames, contacts) <==>
      id in HandlersAdded(present, usernames[..k], contacts) || AddsHandler(present, usernames[k], contacts, id)
  {
    var k := |usernames| - 1;
    var c := FindContact(contacts, usernames[k]);
    var last := if usernames[k] in present || c.None? then [] else [c.value.userId];
    assert HandlersAdded(present, usernames, contacts) == HandlersAdded(present, usernames[..k], contacts) + last;
  }

  /** `ConfigureInviteRequestHandlerUsernames`: nothing when not logged in;
    * otherwise each listed name that is not already a handler and has a
    * contact adds that contact's user id. */
  method ConfigureInviteRequestHandlers(world: World, usernames: seq<string>, cloud: Cloud)
    modifies world`inviteRequestHandlers
    ensures world.inviteRequestHandlers == old(world.inviteRequestHandlers) +
      if cloud.LoggedIn() then HandlersAdded(old(world.inviteRequestHandlers), usernames, cloud.contacts) else []
  {
    if !cloud.LoggedIn() {
      return;
    }
    var present := world.inviteRequestHandlers;
    for i := 0 to |usernames|
      invariant world.inviteRequestHandlers == present + HandlersAdded(present, usernames[..i], cloud.contacts)
    {
      assert usernames[..i + 1][..i] == usernames[..i];
      var u := usernames[i];
      if u !in present {
        var contact := FindContact(cloud.contacts, u);
        if contact.Some? {
          world.inviteRequestHandlers := world.inviteRequestHandlers + [contact.value.userId];
        }
      }
    }
    assert usernames[..|usernames|] == usernames;
  }

  // ---- automatic invites -------------------------------------------------

  /** The user ids of the contacts of `usernames`, names without a contact skipped. */
  function ContactIds(usernames: seq<string>, contacts: seq<Contact>): (r: seq<string>)
    ensures |r| <= |usernames|
    ensures forall id :: id in r ==> exists c :: c in contacts && c.userId == id
  {
    if usernames == [] then []
    else
      var c := FindContact(contacts, usernames[|usernames| - 1]);
      ContactIds(usernames[..|usernames| - 1], contacts) + if c.None? then [] else [c.value.userId]
  }

  /** The join permissions of `SendAutomaticInvitesAsync`: every id of
    * `JoinAllowedUserIds`, then, when auto-invite names are given and the host
    * is logged in, every invited contact. */
  method SendAutomaticInvites(world: World, p: StartupParameters, cloud: Cloud)
    modifies world`joinAllowedUserIds
    ensures world.joinAllowedUserIds == old(world.joinAllowedUserIds) + p.joinAllowedUserIds +
      if p.autoInviteUsernames.Some? && cloud.LoggedIn() then ContactIds(p.autoInviteUsernames.value, cloud.contacts) else []
  {
    var before := world.joinAllowedUserIds;
    for i := 0 to |p.joinAllowedUserIds|
      invariant world.joinAllowedUserIds == before + p.joinAllowedUserIds[..i]
    {
      assert p.joinAllowedUserIds[..i + 1] == p.joinAllowedUserIds[..i] + [p.joinAllowedUserIds[i]];
      world.AllowUserToJoin(p.joinAllowedUserIds[i]);
    }
    assert p.joinAllowedUserIds[..|p.joinAllowedUserIds|] == p.joinAllowedUserIds;
    if p.autoInviteUsernames.None? || !cloud.LoggedIn() {
      return;
    }
    var names := p.autoInviteUsernames.value;
    var allowed := world.joinAllowedUserIds;
    for i := 0 to |names|
      invariant world.joinAllowedUserIds == allowed + ContactIds(names[..i], cloud.contacts)
    {
      assert names[..i + 1][..i] == names[..i];
      var contact := FindContact(cloud.contacts, names[i]);
      if contact.Some? {
        world.AllowUserToJoin(contact.value.userId);
      }
    }
    assert names[..|names|] == names;
  }

  // ---- permissions -------------------------------------------------------

  /** `Permissions.FindRoleByName`: the first role with that name. */
  function FindRoleByName(roles: seq<Role>, name: string): (r: Option<Role>)
    ensures r.Some? ==> r.value in roles && r.value.name == name
    ensures r.None? <==> forall x :: x in roles ==> x.name != name
  {
    if roles == [] then None
    else if roles[0].name == name then Some(roles[0])
    else FindRoleByName(roles[1..], name)
  }

  /** The role entry `userName -> roleName` resolves to, if both the user and
    * the role exist: the user's id and the role capped at the host's role. */
  function Resolve(e: UserRole, roles: seq<Role>, hostRole: Role, userIdByName: string -> Option<string>): Option<(string, Role)> {
    var uid := userIdByName(e.userName);
    var role := FindRoleByName(roles, e.roleName);
    if uid.None? || role.None? then None else Some((uid.value, FilterRole(role.value, hostRole)))
  }

  /** The default permissions after the `DefaultUserRoles` entries, in order,
    * each replacing its user's entry. */
  function PermissionsAfter(perms: map<string, Role>, entries: seq<UserRole>, roles: seq<Role>, hostRole: Role,
                            userIdByName: string -> Option<string>): map<string, Role>
  {
    if entries == [] then perms
    else
      var prev := PermissionsAfter(perms, entries[..|entries| - 1], roles, hostRole, userIdByName);
      var r := Resolve(entries[|entries| - 1], roles, hostRole, userIdByName);
      if r.None? then prev else prev[r.value.0 := r.value.1]
  }

  /** No entry of `perms` outranks the host's role. */
  predicate WithinHostRole(perms: map<string, Role>, hostRole: Role) {
    forall k :: k in perms ==> perms[k].rank <= hostRole.rank
  }

  /** No default permission outranks the host: every role the entries add is
    * capped, and one already in place stays if it was within bounds. */
  lemma {:induction false} PermissionsWithinHostRole(perms: map<string, Role>, entries: seq<UserRole>, roles: seq<Role>, hostRole: Role,
                                                     userIdByName: string -> Option<string>)
    requires WithinHostRole(perms, hostRole)
    ensures WithinHostRole(PermissionsAfter(perms, entries, roles, hostRole, userIdByName), hostRole)
  {
    if entries != [] {
      var init := entries[..|entries| - 1];
      PermissionsWithinHostRole(perms, init, roles, hostRole, userIdByName);
      var prev := PermissionsAfter(perms, init, roles, hostRole, userIdByName);
      var r := Resolve(entries[|entries| - 1], roles, hostRole, userIdByName);
      if r.Some? {
        var m := prev[r.value.0 := r.value.1];
        forall k | k in m
          ensures m[k].rank <= hostRole.rank
        {
          if k != r.value.0 {
            assert m[k] == prev[k];
          }
        }
      }
    }
  }

  /** A user has a default permission exactly when it had one before or some
    * entry names it with a role that exists; unknown users and roles are
    * skipped. */
  lemma {:induction false} PermissionsKeys(perms: map<string, Role>, entries: seq<UserRole>, roles: seq<Role>, hostRole: Role,
                                           userIdByName: string -> Option<string>, k: string)
    ensures k in PermissionsAfter(perms, entries, roles, hostRole, userIdByName) <==>
      k in perms || exists i :: 0 <= i < |entries| && Resolve(entries[i], roles, hostRole, userIdByName) != None
                                && Resolve(entries[i], roles, hostRole, userIdByName).value.0 == k
  {
    if entries != [] {
      var init := entries[..|entries| - 1];
      PermissionsKeys(perms, init, roles, hostRole, userIdByName, k);
      assert forall i :: 0 <= i < |init| ==> init[i] == entries[i];
    }
  }

  /** `ConfigurePermissionsAsync`: clears the default permissions unless the
    * original roles are kept, then applies the entries. */
  method ConfigurePermissions(world: World, p: StartupParameters, cloud: Cloud)
    modifies world`defaultUserPermissions
    ensures var base := if p.keepOriginalRoles then old(world.defaultUserPermissions) else map[];
      world.defaultUserPermissions ==
        if p.defaultUserRoles.None? then base
        else PermissionsAfter(base, p.defaultUserRoles.value, world.roles, world.hostRole, cloud.userIdByName)
  {
    if !p.keepOriginalRoles {
      world.defaultUserPermissions := map[];
    }
    if p.defaultUserRoles.None? {
      return;
    }
    var entries := p.defaultUserRoles.value;
    var base := world.defaultUserPermissions;
    for i := 0 to |entries|
      invariant world.defaultUserPermissions == PermissionsAfter(base, entries[..i], world.roles, world.hostRole, cloud.userIdByName)
    {
      assert entries[..i + 1][..i] == entries[..i];
      var e := entries[i];
      var uid := cloud.userIdByName(e.userName);
      if uid.Some? {
        var role := FindRoleByName(world.roles, e.roleName);
        if role.Some? {
          var permissionSet := FilterRole(role.value, world.hostRole);
          world.defaultUserPermissions := world.defaultUserPermissions - {uid.value};
          world.defaultUserPermissions := world.defaultUserPermissions[uid.value := permissionSet];
        }
      }
    }
    assert entries[..|entries|] == entries;
  }

  // ---- cloud variables ---------------------------------------------------

  /** A cloud-variable setting after the guard: a given, valid path replaces
    * the current value; anything else keeps it. */
  function GuardedPath(given: Option<string>, current: Option<string>, isValidPath: string -> bool): (r: Option<string>)
    ensures r == current || (r == given && given.Some? && isValidPath(given.value))
    ensures given.Some? && isValidPath(given.value) ==> r == given
    ensures (given.None? || !isValidPath(given.value)) ==> r == current
  {
    if given.Some? && isValidPath(given.value) then given else current
  }

  /** The cloud-variable settings after `SetCloudVariableParameters`. */
  predicate CloudVariablesApplied(world: World, p: StartupParameters, cloud: Cloud, role: Option<string>, allow: Option<string>,
                                  deny: Option<string>, required: Option<string>, denyMessage: Option<string>)
    reads world`roleCloudVariable, world`allowUserCloudVariable, world`denyUserCloudVariable,
          world`requiredUserJoinCloudVariable, world`requiredUserJoinCloudVariableDenyMessage
  {
    && world.roleCloudVariable == GuardedPath(p.roleCloudVariable, role, cloud.isValidPath)
    && world.allowUserCloudVariable == GuardedPath(p.allowUserCloudVariable, allow, cloud.isValidPath)
    && world.denyUserCloudVariable == GuardedPath(p.denyUserCloudVariable, deny, cloud.isValidPath)
    && world.requiredUserJoinCloudVariable == GuardedPath(p.requiredUserJoinCloudVariable, required, cloud.isValidPath)
    && world.requiredUserJoinCloudVariableDenyMessage ==
         (if p.requiredUserJoinCloudVariableDenyMessage.Some? then p.requiredUserJoinCloudVariableDenyMessage else denyMessage)
  }

  /** `SetCloudVariableParameters`: the four paths are guarded; the deny
    * message is taken whenever it is given. */
  method SetCloudVariableParameters(world: World, p: StartupParameters, cloud: Cloud)
    modifies world`roleCloudVariable, world`allowUserCloudVariable, world`denyUserCloudVariable,
             world`requiredUserJoinCloudVariable, world`requiredUserJoinCloudVariableDenyMessage
    ensures CloudVariablesApplied(world, p, cloud, old(world.roleCloudVariable), old(world.allowUserCloudVariable),
                                  old(world.denyUserCloudVariable), old(world.requiredUserJoinCloudVariable),
                                  old(world.requiredUserJoinCloudVariableDenyMessage))
  {
    if p.roleCloudVariable.Some? && cloud.isValidPath(p.roleCloudVariable.value) {
      world.roleCloudVariable := p.roleCloudVariable;
    }
    if p.allowUserCloudVariable.Some? && cloud.isValidPath(p.allowUserCloudVariable.value) {
      world.allowUserCloudVariable := p.allowUserCloudVariable;
    }
    if p.denyUserCloudVariable.Some? && cloud.isValidPath(p.denyUserCloudVariable.value) {
      world.denyUserCloudVariable := p.denyUserCloudVariable;
    }
    if p.requiredUserJoinCloudVariable.Some? && cloud.isValidPath(p.requiredUserJoinCloudVariable.value) {
      world.requiredUserJoinCloudVariable := p.requiredUserJoinCloudVariable;
    }
    if p.requiredUserJoinCloudVariableDenyMessage.Some? {
      world.requiredUserJoinCloudVariableDenyMessage := p.requiredUserJoinCloudVariableDenyMessage;
    }
  }

  // ---- all together ------------------------------------------------------

  /** The away-kick setting a minute count stands for: enabled with that count
    * when positive, otherwise disabled with -1. */
  function AwayKick(minutes: int): (r: (bool, int))
    ensures r.0 <==> minutes > 0
    ensures r.1 == if minutes > 0 then minutes else -1
  {
    if minutes > 0 then (true, minutes) else (false, -1)
  }

  /** The listing fields after `SetParametersAsync`. */
  predicate ListingApplied(world: World, p: StartupParameters, name: Option<string>, tags: seq<string>)
    reads world`name, world`tags, world`accessLevel, world`useCustomJoinVerifier, world`hideFromListing,
          world`maxUsers, world`mobileFriendly, world`description
  {
    && world.name == (if p.sessionName.Some? then p.sessionName else name)
    && world.tags == (if p.tags.Some? then p.tags.value else tags)
    && world.accessLevel == p.accessLevel && world.useCustomJoinVerifier == p.useCustomJoinVerifier
    && (world.hideFromListing <==> p.hideFromPublicListing == Some(true))
    && world.maxUsers == p.maxUsers && world.mobileFriendly == p.mobileFriendly
    && world.description == p.description
  }

  /** The listing fields of `SetParametersAsync`: name and tags only when
    * given, listing hidden only for an explicit `true`, the rest copied. */
  method AssignListingFields(world: World, p: StartupParameters)
    modifies world`name, world`tags, world`accessLevel, world`useCustomJoinVerifier, world`hideFromListing,
             world`maxUsers, world`mobileFriendly, world`description
    ensures ListingApplied(world, p, old(world.name), old(world.tags))
  {
    // a field the parameters leave unset is assigned its own value
    world.name := if p.sessionName.Some? then p.sessionName else world.name;
    world.tags := if p.tags.Some? then p.tags.value else world.tags;
    world.accessLevel := p.accessLevel;
    world.useCustomJoinVerifier := p.useCustomJoinVerifier;
    world.hideFromListing := p.hideFromPublicListing == Some(true);
    world.maxUsers := p.maxUsers;
    world.mobileFriendly := p.mobileFriendly;
    world.description := p.description;
  }

  /** The lifecycle fields after `SetParametersAsync`. */
  predicate LifecycleApplied(world: World, p: StartupParameters, cloud: Cloud, correspondingWorldId: Option<RecordId>)
    reads world`forceFullUpdateCycle, world`saveOnExit, world`correspondingWorldId,
          world`awayKickEnabled, world`awayKickMinutes
  {
    && world.forceFullUpdateCycle == !p.autoSleep && world.saveOnExit == p.saveOnExit
    && world.correspondingWorldId ==
         (if p.overrideCorrespondingWorldId.Some? && cloud.isValidRecordId(p.overrideCorrespondingWorldId.value)
          then p.overrideCorrespondingWorldId else correspondingWorldId)
    && (world.awayKickEnabled, world.awayKickMinutes) == AwayKick(p.awayKickMinutes)
  }

  /** The lifecycle fields of `SetParametersAsync`: update cycle, save on exit,
    * the corresponding world only when given and valid, and away-kick. */
  method AssignLifecycleFields(world: World, p: StartupParameters, cloud: Cloud)
    modifies world`forceFullUpdateCycle, world`saveOnExit, world`correspondingWorldId,
             world`awayKickEnabled, world`awayKickMinutes
    ensures LifecycleApplied(world, p, cloud, old(world.correspondingWorldId))
  {
    world.forceFullUpdateCycle := !p.autoSleep;
    world.saveOnExit := p.saveOnExit;
    var correspondingWorldId := p.overrideCorrespondingWorldId;
    if correspondingWorldId.Some? && cloud.isValidRecordId(correspondingWorldId.value) {
      world.correspondingWorldId := correspondingWorldId;
    }
    if p.awayKickMinutes > 0 {
      world.awayKickEnabled := true;
      world.awayKickMinutes := p.awayKickMinutes;
    } else {
      world.awayKickEnabled := false;
      world.awayKickMinutes := -1;
    }
  }

  /** The access settings after `SetParametersAsync`. */
  predicate AccessApplied(world: World, p: StartupParameters, cloud: Cloud, parents: seq<string>, handlers: seq<string>,
                          permissions: map<string, Role>, joinAllowed: seq<string>)
    reads world`parentSessionIds, world`inviteRequestHandlers, world`defaultUserPermissions, world`joinAllowedUserIds,
          world`roles, world`hostRole
  {
    && world.parentSessionIds ==
         (if p.parentSessionIds.None? then parents
          else Filter(p.parentSessionIds.value, cloud.isValidSessionId))
    && world.inviteRequestHandlers == handlers +
         (if p.inviteRequestHandlerUsernames.Some? && |p.inviteRequestHandlerUsernames.value| > 0 && cloud.LoggedIn()
          then HandlersAdded(handlers, p.inviteRequestHandlerUsernames.value, cloud.contacts) else [])
    && world.defaultUserPermissions ==
         (var base := if p.keepOriginalRoles then permissions else map[];
          if p.defaultUserRoles.None? then base
          else PermissionsAfter(base, p.defaultUserRoles.value, world.roles, world.hostRole, cloud.userIdByName))
    && world.joinAllowedUserIds == joinAllowed + p.joinAllowedUserIds +
         (if p.autoInviteUsernames.Some? && cloud.LoggedIn() then ContactIds(p.autoInviteUsernames.value, cloud.contacts) else [])
  }

  /** The access part of `SetParametersAsync`: parent sessions, the invite
    * handlers (only for a non-empty list), default permissions and join
    * permissions. */
  method ConfigureAccess(world: World, p: StartupParameters, cloud: Cloud)
    modifies world`parentSessionIds, world`inviteRequestHandlers, world`defaultUserPermissions, world`joinAllowedUserIds
    ensures AccessApplied(world, p, cloud, old(world.parentSessionIds), old(world.inviteRequestHandlers),
                          old(world.defaultUserPermissions), old(world.joinAllowedUserIds))
  {
    ConfigureParentSessions(world, p, cloud);
    if p.inviteRequestHandlerUsernames.Some? && |p.inviteRequestHandlerUsernames.value| > 0 {
      ConfigureInviteRequestHandlers(world, p.inviteRequestHandlerUsernames.value, cloud);
    }
    ConfigurePermissions(world, p, cloud);
    SendAutomaticInvites(world, p, cloud);
  }

  /** What `SetParametersAsync` leaves in the world, field by field, relative
    * to the world before it ran. */
  twostate predicate ParametersApplied(world: World, p: StartupParameters, cloud: Cloud)
    reads world
  {
    && ListingApplied(world, p, old(world.name), old(world.tags))
    && LifecycleApplied(world, p, cloud, old(world.correspondingWorldId))
    && CloudVariablesApplied(world, p, cloud, old(world.roleCloudVariable), old(world.allowUserCloudVariable),
                             old(world.denyUserCloudVariable), old(world.requiredUserJoinCloudVariable),
                             old(world.requiredUserJoinCloudVariableDenyMessage))
    && AccessApplied(world, p, cloud, old(world.parentSessionIds), old(world.inviteRequestHandlers),
                     old(world.defaultUserPermissions), old(world.joinAllowedUserIds))
  }

  /** The field assignments of `SetParametersAsync` before the access
    * settings: listing, lifecycle, then the cloud variables. */
  method AssignFields(world: World, p: StartupParameters, cloud: Cloud)
    modifies world`name, world`tags, world`accessLevel, world`useCustomJoinVerifier, world`hideFromListing,
             world`maxUsers, world`mobileFriendly, world`description, world`forceFullUpdateCycle,
             world`saveOnExit, world`correspondingWorldId, world`awayKickEnabled, world`awayKickMinutes,
             world`roleCloudVariable, world`allowUserCloudVariable, world`denyUserCloudVariable,
             world`requiredUserJoinCloudVariable, world`requiredUserJoinCloudVariableDenyMessage
    ensures ListingApplied(world, p, old(world.name), old(world.tags))
    ensures LifecycleApplied(world, p, cloud, old(world.correspondingWorldId))
    ensures CloudVariablesApplied(world, p, cloud, old(world.roleCloudVariable), old(world.allowUserCloudVariable),
                                  old(world.denyUserCloudVariable), old(world.requiredUserJoinCloudVariable),
                                  old(world.requiredUserJoinCloudVariableDenyMessage))
  {
    AssignListingFields(world, p);
    AssignLifecycleFields(world, p, cloud);
    SetCloudVariableParameters(world, p, cloud);
  }

  /** `SetParametersAsync`: the listing and lifecycle fields, the cloud
    * variables, then the access settings; the parameters are handed back
    * unchanged, and the world's state, users, roles and tree are outside what
    * it may change. */
  method SetParameters(world: World, p: StartupParameters, cloud: Cloud) returns (r: StartupParameters)
    modifies world`name, world`tags, world`accessLevel, world`useCustomJoinVerifier, world`hideFromListing,
             world`maxUsers, world`mobileFriendly, world`description, world`forceFullUpdateCycle,
             world`saveOnExit, world`correspondingWorldId, world`awayKickEnabled, world`awayKickMinutes,
             world`roleCloudVariable, world`allowUserCloudVariable, world`denyUserCloudVariable,
             world`requiredUserJoinCloudVariable, world`requiredUserJoinCloudVariableDenyMessage,
             world`parentSessionIds, world`inviteRequestHandlers, world`defaultUserPermissions, world`joinAllowedUserIds
    ensures r == p
    ensures ParametersApplied(world, p, cloud)
  {
    AssignFields(world, p, cloud);
    ConfigureAccess(world, p, cloud);
    r := p;
  }
}
