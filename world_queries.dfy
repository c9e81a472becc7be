/** The GraphQL root queries over the running sessions: a world, a slot or a
  * component by session id and RefID, and the catalogue of component types
  * with its name filter and category. The catalogue itself comes from
  * scanning the loaded assemblies and is a parameter here. */
module WorldQueries {
  import opened Wrappers
  import opened Engine
  import opened Text
  import opened SceneGraph
  import opened SessionRecord
  import Sessions

  /** The world of the session registered under `sessionId`, as a frame. */
  function SessionWorld(service: Sessions.WorldService, sessionId: string): set<World>
    reads service
  {
    if sessionId in service.runningWorlds then {service.runningWorlds[sessionId].world} else {}
  }

  /** `GetWorlds`: the world of every registered session. */
  function GetWorlds(service: Sessions.WorldService): (r: set<World>)
    reads service
    ensures forall id :: id in service.runningWorlds ==> service.runningWorlds[id].world in r
    ensures forall w :: w in r ==> exists id :: id in service.runningWorlds && service.runningWorlds[id].world == w
  {
    set id | id in service.runningWorlds :: service.runningWorlds[id].world
  }

  /** `GetWorld`: null for an unknown session. */
  function GetWorld(service: Sessions.WorldService, sessionId: string): (r: Option<World>)
    reads service
    ensures r.None? <==> sessionId !in service.runningWorlds
    ensures r.Some? ==> r.value == service.runningWorlds[sessionId].world
  {
    var session := service.GetSession(sessionId);
    if session.Some? then Some(session.value.world) else None
  }

  /** `GetSlot`: null for an unknown session; otherwise, on the world's
    * thread, `RefID.Parse` (which throws on text that is not a RefID) and the
    * lookup. */
  function GetSlot(service: Sessions.WorldService, sessionId: string, refId: string, parse: string -> Option<RefId>): (r: Result<Option<Slot>, ParseFault>)
    reads service, SessionWorld(service, sessionId)
    ensures sessionId !in service.runningWorlds ==> r == Ok(None)
    ensures sessionId in service.runningWorlds ==>
      var root := service.runningWorlds[sessionId].world.root;
      (r.Err? <==> parse(refId).None?) &&
      (r.Ok? ==> (r.value.None? <==> !Has(root, parse(refId).value))) &&
      (r.Ok? && r.value.Some? ==> r.value.value.refId == parse(refId).value && r.value.value in Flatten(root))
  {
    var session := service.GetSession(sessionId);
    if session.None? then Ok(None)
    else
      var id := ParseRefId(parse, refId);
      if id.Err? then Err(id.error)
      else
        FindIsFirstInPreOrder(session.value.world.root, id.value);
        Ok(Find(session.value.world.root, id.value))
  }

  /** `GetComponent`: as `GetSlot`, for the component with that RefID. */
  function GetComponent(service: Sessions.WorldService, sessionId: string, refId: string, parse: string -> Option<RefId>): (r: Result<Option<Component>, ParseFault>)
    reads service, SessionWorld(service, sessionId)
    ensures sessionId !in service.runningWorlds ==> r == Ok(None)
    ensures sessionId in service.runningWorlds ==>
      var root := service.runningWorlds[sessionId].world.root;
      (r.Err? <==> parse(refId).None?) &&
      (r.Ok? ==> r.value == FindComponent(root, parse(refId).value))
  {
    var session := service.GetSession(sessionId);
    if session.None? then Ok(None)
    else
      var id := ParseRefId(parse, refId);
      if id.Err? then Err(id.error)
      else Ok(FindComponent(session.value.world.root, id.value))
  }

  // ---- component types ---------------------------------------------------

  /** `ComponentTypeInfo` */
  datatype ComponentTypeInfo = ComponentTypeInfo(
    name: string, fullName: string, category: Option<string>, isGeneric: bool, genericDefinition: Option<string>)

  /** `GetCategory`: the specific FrooxEngine sub-namespaces first, then any
    * other FrooxEngine namespace as `Core`; anything else is returned as it is. */
  function Category(ns: Option<string>): (r: Option<string>)
    ensures r.None? <==> ns.None?
    ensures r != ns ==> r.value in ["ProtoFlux", "UIX", "IK", "Avatar", "LogiX", "Core"]
  {
    if ns.None? then None
    else if StartsWith(ns.value, "FrooxEngine.ProtoFlux") then Some("ProtoFlux")
    else if StartsWith(ns.value, "FrooxEngine.UIX") then Some("UIX")
    else if StartsWith(ns.value, "FrooxEngine.FinalIK") then Some("IK")
    else if StartsWith(ns.value, "FrooxEngine.CommonAvatar") then Some("Avatar")
    else if StartsWith(ns.value, "FrooxEngine.LogiX") then Some("LogiX")
    else if StartsWith(ns.value, "FrooxEngine") then Some("Core")
    else ns
  }

  lemma PrefixOfPrefix(s: string, p: string, q: string)
    requires StartsWith(s, p + q)
    ensures StartsWith(s, p)
  {
    assert s[..|p|] == (p + q)[..|p|];
  }

  /** Every specific category lies inside `FrooxEngine`, so a namespace outside
    * it keeps its own name, and a null namespace has no category. */
  lemma CategoryOutsideFrooxEngine(ns: Option<string>)
    requires ns.Some? ==> !StartsWith(ns.value, "FrooxEngine")
    ensures Category(ns) == ns
  {
    if ns.Some? {
      var s := ns.value;
      if StartsWith(s, "FrooxEngine.ProtoFlux") {
        assert "FrooxEngine.ProtoFlux" == "FrooxEngine" + ".ProtoFlux";
        PrefixOfPrefix(s, "FrooxEngine", ".ProtoFlux");
      }
      if StartsWith(s, "FrooxEngine.UIX") {
        assert "FrooxEngine.UIX" == "FrooxEngine" + ".UIX";
        PrefixOfPrefix(s, "FrooxEngine", ".UIX");
      }
      if StartsWith(s, "FrooxEngine.FinalIK") {
        assert "FrooxEngine.FinalIK" == "FrooxEngine" + ".FinalIK";
        PrefixOfPrefix(s, "FrooxEngine", ".FinalIK");
      }
      if StartsWith(s, "FrooxEngine.CommonAvatar") {
        assert "FrooxEngine.CommonAvatar" == "FrooxEngine" + ".CommonAvatar";
        PrefixOfPrefix(s, "FrooxEngine", ".CommonAvatar");
      }
      if StartsWith(s, "FrooxEngine.LogiX") {
        assert "FrooxEngine.LogiX" == "FrooxEngine" + ".LogiX";
        PrefixOfPrefix(s, "FrooxEngine", ".LogiX");
      }
    }
  }

  /** Inside `FrooxEngine`, `Core` is exactly a namespace outside the five specific ones. */
  lemma CategoryCore(ns: string)
    requires StartsWith(ns, "FrooxEngine")
    ensures Category(Some(ns)) == Some("Core") <==>
      !StartsWith(ns, "FrooxEngine.ProtoFlux") && !StartsWith(ns, "FrooxEngine.UIX") &&
      !StartsWith(ns, "FrooxEngine.FinalIK") && !StartsWith(ns, "FrooxEngine.CommonAvatar") && !StartsWith(ns, "FrooxEngine.LogiX")
  {
  }

  /** A specific sub-namespace wins over the generic `Core` rule. */
  lemma CategorySpecificFirst()
    ensures Category(Some("FrooxEngine.UIX.Layout")) == Some("UIX")
    ensures Category(Some("FrooxEngine.ProtoFlux.Runtimes")) == Some("ProtoFlux")
    ensures Category(Some("FrooxEngine")) == Some("Core")
  {
    assert "FrooxEngine.UIX.Layout"[12] != "FrooxEngine.ProtoFlux"[12];
    assert "FrooxEngine.UIX.Layout"[..|"FrooxEngine.UIX"|] == "FrooxEngine.UIX";
    assert "FrooxEngine.ProtoFlux.Runtimes"[..|"FrooxEngine.ProtoFlux"|] == "FrooxEngine.ProtoFlux";
    assert "FrooxEngine"[..|"FrooxEngine"|] == "FrooxEngine";
  }

  /** `new ComponentTypeInfo(type)` */
  function Info(t: TypeInfo): (r: ComponentTypeInfo)
    ensures r.name == t.name && r.isGeneric == t.isGeneric
    ensures r.fullName == t.fullName.GetOr(t.name)
    ensures r.category == Category(t.namespace)
    ensures !t.isGeneric ==> r.genericDefinition.None?
  {
    ComponentTypeInfo(t.name, t.fullName.GetOr(t.name), Category(t.namespace), t.isGeneric,
      if t.isGeneric then t.genericDefinition else None)
  }

  /** The `Where` predicate: the lowered short or full name contains the lowered filter. */
  predicate MatchesFilter(t: TypeInfo, lowerFilter: string) {
    Contains(ToLower(t.name), lowerFilter) ||
    (t.fullName.Some? && Contains(ToLower(t.fullName.value), lowerFilter))
  }

  function Matching(types: seq<TypeInfo>, lowerFilter: string): (r: seq<TypeInfo>)
    ensures |r| <= |types|
  {
    if types == [] then []
    else Kept(types[0], lowerFilter) + Matching(types[1..], lowerFilter)
  }

  function Kept(t: TypeInfo, lowerFilter: string): seq<TypeInfo> {
    if MatchesFilter(t, lowerFilter) then [t] else []
  }

  /** The filter keeps exactly the matching types. */
  lemma {:induction false} MatchingMembers(types: seq<TypeInfo>, lowerFilter: string)
    ensures forall t :: t in Matching(types, lowerFilter) <==> t in types && MatchesFilter(t, lowerFilter)
  {
    if types != [] {
      MatchingMembers(types[1..], lowerFilter);
      assert forall t :: t in types <==> t == types[0] || t in types[1..];
      assert forall t :: t in Kept(types[0], lowerFilter) <==> t == types[0] && MatchesFilter(t, lowerFilter);
    }
  }

  /** The filter keeps the catalogue's order. */
  lemma {:induction false} MatchingAppend(a: seq<TypeInfo>, b: seq<TypeInfo>, lowerFilter: string)
    ensures Matching(a + b, lowerFilter) == Matching(a, lowerFilter) + Matching(b, lowerFilter)
  {
    if a == [] {
      assert a + b == b;
    } else {
      assert (a + b)[1..] == a[1..] + b;
      assert Matching(a + b, lowerFilter) == Kept(a[0], lowerFilter) + Matching(a[1..] + b, lowerFilter);
      MatchingAppend(a[1..], b, lowerFilter);
    }
  }

  /** `GetComponentTypes(filter)`: every scanned type for a null or empty
    * filter, otherwise the matching ones, each described by `Info`. */
  function GetComponentTypes(allTypes: seq<TypeInfo>, filter: Option<string>): (r: seq<ComponentTypeInfo>)
    ensures IsNullOrEmpty(filter) ==> |r| == |allTypes| && forall i :: 0 <= i < |r| ==> r[i] == Info(allTypes[i])
    ensures !IsNullOrEmpty(filter) ==>
      var kept := Matching(allTypes, ToLower(filter.value));
      |r| == |kept| && forall i :: 0 <= i < |r| ==> r[i] == Info(kept[i])
  {
    var types := if IsNullOrEmpty(filter) then allTypes else Matching(allTypes, ToLower(filter.value));
    seq(|types|, i requires 0 <= i < |types| => Info(types[i]))
  }
}
