/** The GraphQL slot mutations: setting a slot's active flag, name or
  * transform, adding a child slot and deleting a slot. Each looks the
  * session up first and does the rest on the world's thread, where
  * `RefID.Parse` throws on text that is not a RefID. The edits change the
  * world's slot tree, `World.root`. */
module SlotMutations {
  import opened Wrappers
  import opened Engine
  import opened SceneGraph
  import opened SessionRecord
  import Sessions
  import WorldQueries

  // ---- attribute edits ---------------------------------------------------

  function WithActive(a: SlotAttrs, active: bool): (r: SlotAttrs)
    ensures r.active == active && r.(active := a.active) == a
  {
    a.(active := active)
  }

  function WithName(a: SlotAttrs, name: string): (r: SlotAttrs)
    ensures r.name == Some(name) && r.(name := a.name) == a
  {
    a.(name := Some(name))
  }

  /** `slot.GlobalPosition = p` when `global`, otherwise `slot.LocalPosition = p`. */
  function WithPosition(a: SlotAttrs, p: Vec3, global: bool): (r: SlotAttrs)
    ensures r.globalPosition == (if global then p else a.globalPosition)
    ensures r.localPosition == (if global then a.localPosition else p)
    ensures r.(globalPosition := a.globalPosition, localPosition := a.localPosition) == a
  {
    if global then a.(globalPosition := p) else a.(localPosition := p)
  }

  /** `slot.GlobalRotation = q` when `global`, otherwise `slot.LocalRotation = q`. */
  function WithRotation(a: SlotAttrs, q: Quat, global: bool): (r: SlotAttrs)
    ensures r.globalRotation == (if global then q else a.globalRotation)
    ensures r.localRotation == (if global then a.localRotation else q)
    ensures r.(globalRotation := a.globalRotation, localRotation := a.localRotation) == a
  {
    if global then a.(globalRotation := q) else a.(localRotation := q)
  }

  /** `slot.GlobalScale = s` when `global`, otherwise `slot.LocalScale = s`. */
  function WithScale(a: SlotAttrs, s: Vec3, global: bool): (r: SlotAttrs)
    ensures r.globalScale == (if global then s else a.globalScale)
    ensures r.localScale == (if global then a.localScale else s)
    ensures r.(globalScale := a.globalScale, localScale := a.localScale) == a
  {
    if global then a.(globalScale := s) else a.(localScale := s)
  }

  /** The outcome of a setter on one world: a RefID that does not parse
    * throws, an unknown slot gives null, and either way the tree is kept;
    * otherwise the slot's attributes become `f` of the old ones and the
    * edited slot is returned. */
  ghost predicate Edited(before: Slot, after: Slot, parsed: Option<RefId>, f: SlotAttrs -> SlotAttrs, r: Result<Option<Slot>, ParseFault>) {
    if parsed.None? then r.Err? && after == before
    else if !Has(before, parsed.value) then r == Ok(None) && after == before
    else after == UpdateAttrs(before, parsed.value, f) && r == Ok(Find(after, parsed.value))
  }

  /** After a successful edit the returned slot carries `f` of its old
    * attributes, and no other slot's attributes changed. */
  lemma EditedEffect(before: Slot, after: Slot, parsed: Option<RefId>, f: SlotAttrs -> SlotAttrs, r: Result<Option<Slot>, ParseFault>, k: RefId)
    requires Edited(before, after, parsed, f, r) && r.Ok? && r.value.Some?
    ensures r.value.value.refId == parsed.value
    ensures r.value.value.attrs == f(AttrsOf(before, parsed.value).value)
    ensures k != parsed.value ==> AttrsOf(after, k) == AttrsOf(before, k)
  {
    UpdateAttrsEffect(before, parsed.value, f, parsed.value);
    UpdateAttrsEffect(before, parsed.value, f, k);
    FindIsFirstInPreOrder(after, parsed.value);
  }

  /** The body run on the world's thread. */
  method EditSlot(w: World, slotRefId: string, parse: string -> Option<RefId>, f: SlotAttrs -> SlotAttrs)
    returns (r: Result<Option<Slot>, ParseFault>)
    modifies w`root
    ensures Edited(old(w.root), w.root, parse(slotRefId), f, r)
  {
    var id := ParseRefId(parse, slotRefId);
    if id.Err? {
      return Err(id.error);
    }
    var slot := Find(w.root, id.value);
    if slot.None? {
      return Ok(None);
    }
    w.root := UpdateAttrs(w.root, id.value, f);
    r := Ok(Find(w.root, id.value));
  }

  /** The session lookup shared by the setters: an unknown session gives null
    * and changes nothing. */
  method EditInSession(service: Sessions.WorldService, sessionId: string, slotRefId: string,
                       parse: string -> Option<RefId>, f: SlotAttrs -> SlotAttrs)
    returns (r: Result<Option<Slot>, ParseFault>)
    modifies WorldQueries.SessionWorld(service, sessionId)`root
    ensures sessionId !in service.runningWorlds ==> r == Ok(None)
    ensures sessionId in service.runningWorlds ==>
      var w := service.runningWorlds[sessionId].world;
      Edited(old(w.root), w.root, parse(slotRefId), f, r)
  {
    var session := service.GetSession(sessionId);
    if session.None? {
      return Ok(None);
    }
    r := EditSlot(session.value.world, slotRefId, parse, f);
  }

  /** `SetSlotActive` */
  method SetSlotActive(service: Sessions.WorldService, sessionId: string, slotRefId: string, active: bool,
                       parse: string -> Option<RefId>)
    returns (r: Result<Option<Slot>, ParseFault>)
    modifies WorldQueries.SessionWorld(service, sessionId)`root
    ensures sessionId !in service.runningWorlds ==> r == Ok(None)
    ensures sessionId in service.runningWorlds ==>
      var w := service.runningWorlds[sessionId].world;
      Edited(old(w.root), w.root, parse(slotRefId), a => WithActive(a, active), r)
  {
    r := EditInSession(service, sessionId, slotRefId, parse, a => WithActive(a, active));
  }

  /** `SetSlotName` */
  method SetSlotName(service: Sessions.WorldService, sessionId: string, slotRefId: string, name: string,
                     parse: string -> Option<RefId>)
    returns (r: Result<Option<Slot>, ParseFault>)
    modifies WorldQueries.SessionWorld(service, sessionId)`root
    ensures sessionId !in service.runningWorlds ==> r == Ok(None)
    ensures sessionId in service.runningWorlds ==>
      var w := service.runningWorlds[sessionId].world;
      Edited(old(w.root), w.root, parse(slotRefId), a => WithName(a, name), r)
  {
    r := EditInSession(service, sessionId, slotRefId, parse, a => WithName(a, name));
  }

  /** `SetSlotPosition` */
  method SetSlotPosition(service: Sessions.WorldService, sessionId: string, slotRefId: string, x: int, y: int, z: int,
                         global: bool, parse: string -> Option<RefId>)
    returns (r: Result<Option<Slot>, ParseFault>)
    modifies WorldQueries.SessionWorld(service, sessionId)`root
    ensures sessionId !in service.runningWorlds ==> r == Ok(None)
    ensures sessionId in service.runningWorlds ==>
      var w := service.runningWorlds[sessionId].world;
      Edited(old(w.root), w.root, parse(slotRefId), a => WithPosition(a, Vec3(x, y, z), global), r)
  {
    r := EditInSession(service, sessionId, slotRefId, parse, a => WithPosition(a, Vec3(x, y, z), global));
  }

  /** `SetSlotRotation` */
  method SetSlotRotation(service: Sessions.WorldService, sessionId: string, slotRefId: string, x: int, y: int, z: int, qw: int,
                         global: bool, parse: string -> Option<RefId>)
    returns (r: Result<Option<Slot>, ParseFault>)
    modifies WorldQueries.SessionWorld(service, sessionId)`root
    ensures sessionId !in service.runningWorlds ==> r == Ok(None)
    ensures sessionId in service.runningWorlds ==>
      var w := service.runningWorlds[sessionId].world;
      Edited(old(w.root), w.root, parse(slotRefId), a => WithRotation(a, Quat(x, y, z, qw), global), r)
  {
    r := EditInSession(service, sessionId, slotRefId, parse, a => WithRotation(a, Quat(x, y, z, qw), global));
  }

  /** `SetSlotScale` */
  method SetSlotScale(service: Sessions.WorldService, sessionId: string, slotRefId: string, x: int, y: int, z: int,
                      global: bool, parse: string -> Option<RefId>)
    returns (r: Result<Option<Slot>, ParseFault>)
    modifies WorldQueries.SessionWorld(service, sessionId)`root
    ensures sessionId !in service.runningWorlds ==> r == Ok(None)
    ensures sessionId in service.runningWorlds ==>
      var w := service.runningWorlds[sessionId].world;
      Edited(old(w.root), w.root, parse(slotRefId), a => WithScale(a, Vec3(x, y, z), global), r)
  {
    r := EditInSession(service, sessionId, slotRefId, parse, a => WithScale(a, Vec3(x, y, z), global));
  }

  // ---- adding ------------------------------------------------------------

  /** `parent.AddSlot(name)`: an active, empty slot with the identity local
    * transform, which places it where its parent is; the engine gives it
    * an unused RefID. */
  function NewSlot(id: RefId, name: string, parent: SlotAttrs): (s: Slot)
    ensures s.refId == id && s.attrs.name == Some(name) && s.attrs.active
    ensures s.members == [] && s.components == [] && s.children == []
  {
    Slot(id, SlotAttrs(Some(name), true,
                       Vec3(0, 0, 0), parent.globalPosition,
                       Quat(0, 0, 0, 1), parent.globalRotation,
                       Vec3(1, 1, 1), parent.globalScale),
         [], [], [])
  }

  /** The outcome of `AddChildSlot` on one world: as the setters for a RefID
    * that does not parse or an unknown parent; otherwise a new slot named
    * `name` with an unused RefID is appended to the parent's children and
    * returned. */
  ghost predicate Added(before: Slot, after: Slot, parsed: Option<RefId>, name: string, r: Result<Option<Slot>, ParseFault>) {
    if parsed.None? then r.Err? && after == before
    else if !Has(before, parsed.value) then r == Ok(None) && after == before
    else
      var parent := Find(before, parsed.value).value;
      r.Ok? && r.value.Some? &&
      r.value.value == NewSlot(FreshId(before), name, parent.attrs) &&
      after == ReplaceChildren(before, parsed.value, parent.children + [r.value.value])
  }

  /** The added slot's RefID was unused, and the parent now ends with it. */
  lemma AddedEffect(before: Slot, after: Slot, parsed: Option<RefId>, name: string, r: Result<Option<Slot>, ParseFault>)
    requires Added(before, after, parsed, name, r) && r.Ok? && r.value.Some?
    ensures !Has(before, r.value.value.refId) && r.value.value.attrs.name == Some(name)
    ensures Find(after, parsed.value) ==
      Some(Find(before, parsed.value).value.(children := Find(before, parsed.value).value.children + [r.value.value]))
  {
    var parent := Find(before, parsed.value).value;
    ReplaceChildrenEffect(before, parsed.value, parent.children + [r.value.value]);
  }

  method AddChildSlotOn(w: World, parentSlotRefId: string, name: string, parse: string -> Option<RefId>)
    returns (r: Result<Option<Slot>, ParseFault>)
    modifies w`root
    ensures Added(old(w.root), w.root, parse(parentSlotRefId), name, r)
  {
    var id := ParseRefId(parse, parentSlotRefId);
    if id.Err? {
      return Err(id.error);
    }
    var parent := Find(w.root, id.value);
    if parent.None? {
      return Ok(None);
    }
    var newSlot := NewSlot(FreshId(w.root), name, parent.value.attrs);
    w.root := ReplaceChildren(w.root, id.value, parent.value.children + [newSlot]);
    r := Ok(Some(newSlot));
  }

  /** `AddChildSlot` */
  method AddChildSlot(service: Sessions.WorldService, sessionId: string, parentSlotRefId: string, name: string,
                      parse: string -> Option<RefId>)
    returns (r: Result<Option<Slot>, ParseFault>)
    modifies WorldQueries.SessionWorld(service, sessionId)`root
    ensures sessionId !in service.runningWorlds ==> r == Ok(None)
    ensures sessionId in service.runningWorlds ==>
      var w := service.runningWorlds[sessionId].world;
      Added(old(w.root), w.root, parse(parentSlotRefId), name, r)
  {
    var session := service.GetSession(sessionId);
    if session.None? {
      return Ok(None);
    }
    r := AddChildSlotOn(session.value.world, parentSlotRefId, name, parse);
  }

  // ---- deleting ----------------------------------------------------------

  /** `DeleteSlotResult` */
  datatype DeleteSlotResult = DeleteSlotResult(success: bool, deletedRefId: string, error: Option<string>)

  /** `s` without its element at `k`. */
  function RemoveAt(s: seq<Slot>, k: nat): (r: seq<Slot>)
    requires k < |s|
    ensures |r| == |s| - 1
    ensures forall i :: 0 <= i < k ==> r[i] == s[i]
    ensures forall i :: k <= i < |r| ==> r[i] == s[i + 1]
  {
    s[..k] + s[k + 1..]
  }

  /** The children the deleted slot's parent keeps: its children without the
    * deleted slot, followed, with `preserveChildren`, by the deleted slot's
    * own children in their order. */
  function KeptChildren(parent: Slot, k: nat, preserveChildren: bool): (r: seq<Slot>)
    requires k < |parent.children|
    ensures multiset(r) + multiset{parent.children[k]} ==
      multiset(parent.children) + (if preserveChildren then multiset(parent.children[k].children) else multiset{})
    ensures |r| >= |parent.children| - 1 && r[..|parent.children| - 1] == RemoveAt(parent.children, k)
  {
    var s := parent.children;
    assert s == s[..k] + [s[k]] + s[k + 1..];
    assert multiset(s) == multiset(s[..k]) + multiset{s[k]} + multiset(s[k + 1..]);
    RemoveAt(parent.children, k) + (if preserveChildren then parent.children[k].children else [])
  }

  /** The outcome of `DeleteSlot` on one world. It fails, keeping the tree,
    * for an unknown slot and for the root slot; otherwise the slot leaves its
    * parent, which keeps or adopts the slot's children as `KeptChildren` says. */
  ghost predicate Deleted(before: Slot, after: Slot, parsed: Option<RefId>, slotRefId: string,
                          preserveChildren: bool, r: Result<DeleteSlotResult, ParseFault>) {
    if parsed.None? then r.Err? && after == before
    else
      var id := parsed.value;
      if !Has(before, id) then r == Ok(DeleteSlotResult(false, slotRefId, Some("Slot not found"))) && after == before
      else if before.refId == id then r == Ok(DeleteSlotResult(false, slotRefId, Some("Cannot delete root slot"))) && after == before
      else
        FindParent(before, id).Some? &&
        var parent := FindParent(before, id).value;
        var k := ChildIndex(parent, id);
        r == Ok(DeleteSlotResult(true, slotRefId, None)) &&
        after == ReplaceChildren(before, parent.refId, KeptChildren(parent, k, preserveChildren))
  }

  /** A deletion never removes the root, and reports success exactly for a
    * slot of the tree other than the root. */
  lemma DeletedKeepsRoot(before: Slot, after: Slot, parsed: Option<RefId>, slotRefId: string,
                         preserveChildren: bool, r: Result<DeleteSlotResult, ParseFault>)
    requires Deleted(before, after, parsed, slotRefId, preserveChildren, r)
    ensures after.refId == before.refId && after.attrs == before.attrs
    ensures r.Ok? ==> r.value.deletedRefId == slotRefId
    ensures r.Ok? ==> (r.value.success <==> Has(before, parsed.value) && before.refId != parsed.value)
    ensures r.Ok? ==> (r.value.error.None? <==> r.value.success)
  {
  }

  /** After a successful deletion the parent's children are exactly the kept ones. */
  lemma DeletedEffect(before: Slot, after: Slot, parsed: Option<RefId>, slotRefId: string,
                      preserveChildren: bool, r: Result<DeleteSlotResult, ParseFault>)
    requires Deleted(before, after, parsed, slotRefId, preserveChildren, r) && r.Ok? && r.value.success
    ensures FindParent(before, parsed.value).Some?
    ensures Has(before, FindParent(before, parsed.value).value.refId)
    ensures var parent := FindParent(before, parsed.value).value;
      Find(after, parent.refId) ==
        Some(Find(before, parent.refId).value.(children := KeptChildren(parent, ChildIndex(parent, parsed.value), preserveChildren)))
  {
    var parent := FindParent(before, parsed.value).value;
    FindParentInTree(before, parsed.value);
    ReplaceChildrenEffect(before, parent.refId, KeptChildren(parent, ChildIndex(parent, parsed.value), preserveChildren));
  }

  /** `child.SetParent(slot.Parent, false)` for each child of the deleted
    * slot, in order: each is appended to the parent's children. */
  method Reparent(children: seq<Slot>, adopted: seq<Slot>) returns (kids: seq<Slot>)
    ensures kids == children + adopted
  {
    kids := children;
    var i := 0;
    while i < |adopted|
      invariant 0 <= i <= |adopted|
      invariant kids == children + adopted[..i]
    {
      assert adopted[..i + 1] == adopted[..i] + [adopted[i]];
      kids := kids + [adopted[i]];
      i := i + 1;
    }
    assert adopted[..i] == adopted;
  }

  method DeleteSlotOn(w: World, slotRefId: string, preserveChildren: bool, parse: string -> Option<RefId>)
    returns (r: Result<DeleteSlotResult, ParseFault>)
    modifies w`root
    ensures Deleted(old(w.root), w.root, parse(slotRefId), slotRefId, preserveChildren, r)
  {
    var id := ParseRefId(parse, slotRefId);
    if id.Err? {
      return Err(id.error);
    }
    var root := w.root;
    if Find(root, id.value).None? {
      return Ok(DeleteSlotResult(false, slotRefId, Some("Slot not found")));
    }
    if root.refId == id.value {
      return Ok(DeleteSlotResult(false, slotRefId, Some("Cannot delete root slot")));
    }
    FoundSlotHasParent(root, id.value);
    var parent := FindParent(root, id.value).value;
    var k := ChildIndex(parent, id.value);
    var kids := parent.children;
    if preserveChildren {
      kids := Reparent(kids, parent.children[k].children);
    }
    // `slot.Destroy()` takes the slot out of its parent.
    kids := kids[..k] + kids[k + 1..];
    assert kids == KeptChildren(parent, k, preserveChildren);
    w.root := ReplaceChildren(root, parent.refId, kids);
    r := Ok(DeleteSlotResult(true, slotRefId, None));
  }

  /** `DeleteSlot` */
  method DeleteSlot(service: Sessions.WorldService, sessionId: string, slotRefId: string, preserveChildren: bool,
                    parse: string -> Option<RefId>)
    returns (r: Result<DeleteSlotResult, ParseFault>)
    modifies WorldQueries.SessionWorld(service, sessionId)`root
    ensures sessionId !in service.runningWorlds ==> r == Ok(DeleteSlotResult(false, slotRefId, Some("Session not found")))
    ensures sessionId in service.runningWorlds ==>
      var w := service.runningWorlds[sessionId].world;
      Deleted(old(w.root), w.root, parse(slotRefId), slotRefId, preserveChildren, r)
  {
    var session := service.GetSession(sessionId);
    if session.None? {
      return Ok(DeleteSlotResult(false, slotRefId, Some("Session not found")));
    }
    r := DeleteSlotOn(session.value.world, slotRefId, preserveChildren, parse);
  }
}
