/** The GraphQL mutations that set a component's sync field value or sync
  * reference target. Each runs a fixed chain of checks, every failure
  * returning a result with its error text, and only then writes the member of
  * the component in the world's slot tree. What the engine makes of the
  * value text and which objects a reference accepts are parameters. */
module SyncMemberMutations {
  import opened Wrappers
  import opened Engine
  import opened Text
  import opened SceneGraph
  import opened SessionRecord
  import Sessions
  import WorldQueries
  import SyncMembers

  /** The checks, in the order they are made. */
  datatype Failure =
    | SessionNotFound
    | InvalidRefId
    | InvalidTargetRefId
    | ComponentNotFound
    | MemberNotFound
    | NotAField
    | NotASyncRef

  function Message(f: Failure, memberName: string): string {
    match f
    case SessionNotFound => "Session not found"
    case InvalidRefId => "Invalid RefID format"
    case InvalidTargetRefId => "Invalid target RefID format"
    case ComponentNotFound => "Component not found"
    case MemberNotFound => "SyncMember '" + memberName + "' not found"
    case NotAField => "SyncMember '" + memberName + "' is not a field"
    case NotASyncRef => "SyncMember '" + memberName + "' is not a SyncRef"
  }

  /** Each failure has its own message, so the reply tells the checks apart. */
  lemma MessagesDistinct(f: Failure, g: Failure, memberName: string)
    requires f != g
    ensures Message(f, memberName) != Message(g, memberName)
  {
    var a, b := Message(f, memberName), Message(g, memberName);
    var named := (x: Failure) => x.MemberNotFound? || x.NotAField? || x.NotASyncRef?;
    if named(f) && named(g) {
      assert |a| != |b|;
    } else if named(f) {
      assert a[1] == 'y' && (|b| < 2 || b[1] != 'y');
    } else if named(g) {
      assert b[1] == 'y' && (|a| < 2 || a[1] != 'y');
    } else {
      assert |a| != |b|;
    }
  }

  /** `SetSyncFieldResult` */
  datatype SetSyncFieldResult = SetSyncFieldResult(success: bool, previousValue: Option<string>, newValue: Option<string>, error: Option<string>)

  /** `SetSyncRefResult` */
  datatype SetSyncRefResult = SetSyncRefResult(success: bool, previousRefId: Option<string>, newRefId: Option<string>, error: Option<string>)

  /** The member a mutation writes: the component and the member's index. */
  datatype Target = Target(component: Component, index: nat)
  {
    predicate Valid() { index < |component.members| }
    function Member(): SyncMember requires Valid() { component.members[index] }
  }

  /** `FindComponentByRefId`, then `component.GetSyncMember(memberName)`. */
  function Locate(root: Slot, id: RefId, memberName: string): (r: Result<Target, Failure>)
    ensures r == Err(ComponentNotFound) <==> FindComponent(root, id).None?
    ensures r == Err(MemberNotFound) <==>
      FindComponent(root, id).Some? && SyncMembers.FirstNamed(FindComponent(root, id).value.members, memberName).None?
    ensures r.Err? ==> r == Err(ComponentNotFound) || r == Err(MemberNotFound)
    ensures r.Ok? ==> (r.value.Valid() && Some(r.value.component) == FindComponent(root, id) &&
      Some(r.value.index) == SyncMembers.FirstNamed(r.value.component.members, memberName))
  {
    var c := FindComponent(root, id);
    if c.None? then Err(ComponentNotFound)
    else
      var k := SyncMembers.FirstNamed(c.value.members, memberName);
      if k.None? then Err(MemberNotFound) else Ok(Target(c.value, k.value))
  }

  /** The checks of `SetSyncFieldValue`: session, RefID format, component,
    * member, member kind. `root` is the session's tree, `None` without a session. */
  function FieldChecks(root: Option<Slot>, parsed: Option<RefId>, memberName: string): (r: Result<Target, Failure>)
    ensures r == Err(SessionNotFound) <==> root.None?
    ensures r == Err(InvalidRefId) <==> root.Some? && parsed.None?
    ensures root.Some? && parsed.Some? && Locate(root.value, parsed.value, memberName).Err? ==>
      r == Locate(root.value, parsed.value, memberName)
    ensures r == Err(NotAField) <==> (root.Some? && parsed.Some? &&
      Locate(root.value, parsed.value, memberName).Ok? && !Locate(root.value, parsed.value, memberName).value.Member().kind.FieldMember?)
    ensures r.Ok? <==> (root.Some? && parsed.Some? &&
      Locate(root.value, parsed.value, memberName).Ok? && Locate(root.value, parsed.value, memberName).value.Member().kind.FieldMember?)
    ensures r.Ok? ==> r == Locate(root.value, parsed.value, memberName)
    ensures r.Err? ==> r.error != InvalidTargetRefId && r.error != NotASyncRef
  {
    if root.None? then Err(SessionNotFound)
    else if parsed.None? then Err(InvalidRefId)
    else
      var t := Locate(root.value, parsed.value, memberName);
      if t.Err? then t
      else if !t.value.Member().kind.FieldMember? then Err(NotAField)
      else t
  }

  /** `!string.IsNullOrEmpty(targetRefId)` selects a target, which must parse. */
  function TargetChoice(targetRefId: Option<string>, parse: string -> Option<RefId>): (r: Result<Option<RefId>, Failure>)
    ensures IsNullOrEmpty(targetRefId) ==> r == Ok(None)
    ensures !IsNullOrEmpty(targetRefId) ==>
      (r == Err(InvalidTargetRefId) <==> parse(targetRefId.value).None?) &&
      (r.Ok? ==> r == Ok(parse(targetRefId.value)))
    ensures r.Err? ==> r.error == InvalidTargetRefId
  {
    if IsNullOrEmpty(targetRefId) then Ok(None)
    else if parse(targetRefId.value).None? then Err(InvalidTargetRefId)
    else Ok(parse(targetRefId.value))
  }

  /** The checks of `SetSyncRefTarget`: session, RefID format, target RefID
    * format, component, member, member kind. */
  function RefChecks(root: Option<Slot>, parsed: Option<RefId>, target: Result<Option<RefId>, Failure>, memberName: string): (r: Result<Target, Failure>)
    ensures r == Err(SessionNotFound) <==> root.None?
    ensures r == Err(InvalidRefId) <==> root.Some? && parsed.None?
    ensures r == Err(InvalidTargetRefId) <==> root.Some? && parsed.Some? && target.Err?
    ensures root.Some? && parsed.Some? && target.Ok? && Locate(root.value, parsed.value, memberName).Err? ==>
      r == Locate(root.value, parsed.value, memberName)
    ensures r == Err(NotASyncRef) <==> (root.Some? && parsed.Some? && target.Ok? &&
      Locate(root.value, parsed.value, memberName).Ok? && !Locate(root.value, parsed.value, memberName).value.Member().kind.RefMember?)
    ensures r.Ok? <==> (root.Some? && parsed.Some? && target.Ok? &&
      Locate(root.value, parsed.value, memberName).Ok? && Locate(root.value, parsed.value, memberName).value.Member().kind.RefMember?)
    ensures r.Ok? ==> r == Locate(root.value, parsed.value, memberName)
    ensures r.Err? ==> r.error != NotAField
  {
    if root.None? then Err(SessionNotFound)
    else if parsed.None? then Err(InvalidRefId)
    else if target.Err? then Err(InvalidTargetRefId)
    else
      var t := Locate(root.value, parsed.value, memberName);
      if t.Err? then t
      else if !t.value.Member().kind.RefMember? then Err(NotASyncRef)
      else t
  }

  /** The component with its member at `index` given `kind`. */
  function WithMemberKind(c: Component, index: nat, kind: MemberKind): (r: Component)
    ensures r.refId == c.refId && r.typeInfo == c.typeInfo && |r.members| == |c.members|
    ensures index < |c.members| ==> r.members[index] == SyncMember(c.members[index].name, kind)
    ensures forall j :: 0 <= j < |c.members| && j != index ==> r.members[j] == c.members[j]
  {
    if index < |c.members| then c.(members := c.members[index := SyncMember(c.members[index].name, kind)]) else c
  }

  /** Writing the member of the target component. */
  function Write(root: Slot, t: Target, kind: MemberKind): Slot {
    UpdateComponent(root, t.component.refId, c => WithMemberKind(c, t.index, kind))
  }

  /** After the write the lookup finds the component with just that member
    * changed; every other component is found as before. */
  lemma WriteEffect(root: Slot, t: Target, kind: MemberKind, k: RefId)
    requires t.Valid() && FindComponent(root, t.component.refId) == Some(t.component)
    ensures FindComponent(Write(root, t, kind), t.component.refId) == Some(WithMemberKind(t.component, t.index, kind))
    ensures k != t.component.refId ==> FindComponent(Write(root, t, kind), k) == FindComponent(root, k)
  {
    var f := c => WithMemberKind(c, t.index, kind);
    assert KeepsRefId(f);
    UpdateComponentEffect(root, t.component.refId, f, t.component.refId);
    UpdateComponentEffect(root, t.component.refId, f, k);
  }

  /** `SetSyncFieldValue` on one world once the checks have passed. `assign`
    * is `FrooxEngineGraphQLService.SetSyncFieldValue`: `None` when it
    * returns false (and leaves the field), otherwise the field's new value as
    * text. */
  ghost predicate FieldWritten(before: Slot, after: Slot, parsed: Option<RefId>, memberName: string, value: string,
                               assign: (SyncMember, string) -> Option<Option<string>>, r: SetSyncFieldResult) {
    var check := FieldChecks(Some(before), parsed, memberName);
    if check.Err? then
      r == SetSyncFieldResult(false, None, None, Some(Message(check.error, memberName))) && after == before
    else
      var t := check.value;
      var previous := t.Member().kind.value;
      var outcome := assign(t.Member(), value);
      if outcome.None? then
        r == SetSyncFieldResult(false, previous, None, Some("Failed to set value")) && after == before
      else
        r == SetSyncFieldResult(true, previous, outcome.value, None) &&
        after == Write(before, t, FieldMember(outcome.value))
  }

  /** `SetSyncFieldValue` */
  method SetSyncFieldValue(service: Sessions.WorldService, sessionId: string, componentRefId: string, memberName: string,
                           value: string, parse: string -> Option<RefId>,
                           assign: (SyncMember, string) -> Option<Option<string>>)
    returns (r: SetSyncFieldResult)
    modifies WorldQueries.SessionWorld(service, sessionId)`root
    ensures sessionId !in service.runningWorlds ==> r == SetSyncFieldResult(false, None, None, Some("Session not found"))
    ensures sessionId in service.runningWorlds ==>
      var w := service.runningWorlds[sessionId].world;
      FieldWritten(old(w.root), w.root, parse(componentRefId), memberName, value, assign, r)
  {
    var session := service.GetSession(sessionId);
    var root := if session.Some? then Some(session.value.world.root) else None;
    var check := FieldChecks(root, parse(componentRefId), memberName);
    if check.Err? {
      return SetSyncFieldResult(false, None, None, Some(Message(check.error, memberName)));
    }
    var t := check.value;
    var previous := t.Member().kind.value;
    var outcome := assign(t.Member(), value);
    if outcome.None? {
      return SetSyncFieldResult(false, previous, None, Some("Failed to set value"));
    }
    var w := session.value.world;
    w.root := Write(w.root, t, FieldMember(outcome.value));
    r := SetSyncFieldResult(true, previous, outcome.value, None);
  }

  /** A successful field set stores the new value in that member and reports
    * both the previous and the new value; a failed one reports at most the
    * previous value. */
  lemma FieldWrittenEffect(before: Slot, after: Slot, parsed: Option<RefId>, memberName: string, value: string,
                           assign: (SyncMember, string) -> Option<Option<string>>, r: SetSyncFieldResult)
    requires FieldWritten(before, after, parsed, memberName, value, assign, r)
    ensures r.success <==> r.error.None?
    ensures !r.success ==> after == before && r.newValue.None?
    ensures r.success ==>
      var c := FindComponent(after, parsed.value);
      var k := SyncMembers.FirstNamed(FindComponent(before, parsed.value).value.members, memberName);
      c.Some? && k.Some? && k.value < |c.value.members| &&
      c.value.members[k.value] == SyncMember(memberName, FieldMember(r.newValue)) &&
      Some(r.previousValue) == Some(FindComponent(before, parsed.value).value.members[k.value].kind.value)
  {
    var check := FieldChecks(Some(before), parsed, memberName);
    if check.Ok? && assign(check.value.Member(), value).Some? {
      WriteEffect(before, check.value, FieldMember(assign(check.value.Member(), value).value), parsed.value);
    }
  }

  /** `FrooxEngineGraphQLService.SetSyncRefTarget`: no target, or the
    * default RefID 0, clears the reference; otherwise the reference takes
    * the target if the world has an object with that RefID the reference
    * accepts (`accepts`), and the call fails leaving it as it was if not.
    * `None` is the failure, `Some(t)` the reference's new target. */
  function AssignTarget(target: Option<RefId>, accepts: RefId -> bool): (r: Option<Option<RefId>>)
    ensures target.None? || target == Some(0) ==> r == Some(None)
    ensures target.Some? && target.value != 0 ==> (r.None? <==> !accepts(target.value))
    ensures r.Some? && r.value.Some? ==> r.value == target && target.value != 0
  {
    if target.None? || target.value == 0 then Some(None)
    else if accepts(target.value) then Some(target)
    else None
  }

  /** `SetSyncRefTarget` on one world. `format` is `RefID.ToString()`; the
    * previous target is read through the reference's `Value`, the RefID 0
    * for an empty reference. */
  ghost predicate RefWritten(before: Slot, after: Slot, parsed: Option<RefId>, targetRefId: Option<string>, memberName: string,
                             parse: string -> Option<RefId>, accepts: RefId -> bool, format: RefId -> string, r: SetSyncRefResult) {
    var target := TargetChoice(targetRefId, parse);
    var check := RefChecks(Some(before), parsed, target, memberName);
    if check.Err? then
      r == SetSyncRefResult(false, None, None, Some(Message(check.error, memberName))) && after == before
    else
      var t := check.value;
      var previous := Some(format(t.Member().kind.target.GetOr(0)));
      var outcome := AssignTarget(target.value, accepts);
      if outcome.None? then
        r == SetSyncRefResult(false, previous, None, Some("Failed to set target")) && after == before
      else
        r == SetSyncRefResult(true, previous, targetRefId, None) &&
        after == Write(before, t, RefMember(outcome.value))
  }

  /** `SetSyncRefTarget` */
  method SetSyncRefTarget(service: Sessions.WorldService, sessionId: string, componentRefId: string, memberName: string,
                          targetRefId: Option<string>, parse: string -> Option<RefId>,
                          accepts: RefId -> bool, format: RefId -> string)
    returns (r: SetSyncRefResult)
    modifies WorldQueries.SessionWorld(service, sessionId)`root
    ensures sessionId !in service.runningWorlds ==> r == SetSyncRefResult(false, None, None, Some("Session not found"))
    ensures sessionId in service.runningWorlds ==>
      var w := service.runningWorlds[sessionId].world;
      RefWritten(old(w.root), w.root, parse(componentRefId), targetRefId, memberName, parse, accepts, format, r)
  {
    var session := service.GetSession(sessionId);
    var root := if session.Some? then Some(session.value.world.root) else None;
    var target := TargetChoice(targetRefId, parse);
    var check := RefChecks(root, parse(componentRefId), target, memberName);
    if check.Err? {
      return SetSyncRefResult(false, None, None, Some(Message(check.error, memberName)));
    }
    var t := check.value;
    var previous := Some(format(t.Member().kind.target.GetOr(0)));
    var outcome := AssignTarget(target.value, accepts);
    if outcome.None? {
      return SetSyncRefResult(false, previous, None, Some("Failed to set target"));
    }
    var w := session.value.world;
    w.root := Write(w.root, t, RefMember(outcome.value));
    r := SetSyncRefResult(true, previous, targetRefId, None);
  }

  /** A successful reference set echoes the requested target text and
    * leaves the reference pointing at the target, or at nothing for an empty
    * request; a malformed non-empty target fails without touching the world. */
  lemma RefWrittenEffect(before: Slot, after: Slot, parsed: Option<RefId>, targetRefId: Option<string>, memberName: string,
                         parse: string -> Option<RefId>, accepts: RefId -> bool, format: RefId -> string, r: SetSyncRefResult)
    requires RefWritten(before, after, parsed, targetRefId, memberName, parse, accepts, format, r)
    ensures r.success <==> r.error.None?
    ensures !r.success ==> after == before && r.newRefId.None?
    ensures parsed.Some? && !IsNullOrEmpty(targetRefId) && parse(targetRefId.value).None? ==>
      r == SetSyncRefResult(false, None, None, Some("Invalid target RefID format"))
    ensures r.success ==> r.newRefId == targetRefId
    ensures r.success ==>
      var c := FindComponent(after, parsed.value);
      var k := SyncMembers.FirstNamed(FindComponent(before, parsed.value).value.members, memberName);
      var wanted := if IsNullOrEmpty(targetRefId) then None else parse(targetRefId.value);
      c.Some? && k.Some? && k.value < |c.value.members| &&
      c.value.members[k.value] == SyncMember(memberName, RefMember(if wanted == Some(0) then None else wanted))
  {
    var target := TargetChoice(targetRefId, parse);
    var check := RefChecks(Some(before), parsed, target, memberName);
    if check.Ok? && AssignTarget(target.value, accepts).Some? {
      WriteEffect(before, check.value, RefMember(AssignTarget(target.value, accepts).value), parsed.value);
    }
  }
}
