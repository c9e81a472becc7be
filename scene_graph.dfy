/** Looking slots and components up by RefID in a world's slot tree, and the
  * in-place edits the query layer makes to the tree, as functions on the tree
  * value that `World.root` holds. The engine's reference controller maps each
  * RefID to one object; lookups here take the first match in pre-order, which
  * is that object whenever the tree's ids are distinct. */
module SceneGraph {
  import opened Wrappers
  import opened Engine

  /** `RefID.Parse` throws on text that is not a RefID. The engine's parser is
    * a parameter, `None` where it throws. */
  datatype ParseFault = RefIdFormatException

  function ParseRefId(parse: string -> Option<RefId>, text: string): (r: Result<RefId, ParseFault>)
    ensures r.Ok? <==> parse(text).Some?
    ensures r.Ok? ==> r.value == parse(text).value
  {
    if parse(text).Some? then Ok(parse(text).value) else Err(RefIdFormatException)
  }

  /** Every slot of the tree, the root first, in pre-order with siblings in order. */
  function Flatten(t: Slot): (r: seq<Slot>)
    ensures |r| >= 1 && r[0] == t
    decreases t, 1
  {
    [t] + FlattenAll(t.children)
  }

  function FlattenAll(cs: seq<Slot>): seq<Slot>
    decreases cs, 0
  {
    if cs == [] then [] else Flatten(cs[0]) + FlattenAll(cs[1..])
  }

  lemma {:induction false} FlattenAllAppend(cs: seq<Slot>, c: Slot)
    ensures FlattenAll(cs + [c]) == FlattenAll(cs) + Flatten(c)
  {
    if cs == [] {
      assert [c][1..] == [];
    } else {
      assert (cs + [c])[1..] == cs[1..] + [c];
      FlattenAllAppend(cs[1..], c);
    }
  }

  /** The first element of `ss` with RefID `id`. */
  function FirstWithId(ss: seq<Slot>, id: RefId): (r: Option<Slot>)
    ensures r.Some? ==> r.value in ss && r.value.refId == id
    ensures r.None? <==> forall s :: s in ss ==> s.refId != id
  {
    if ss == [] then None else if ss[0].refId == id then Some(ss[0]) else FirstWithId(ss[1..], id)
  }

  lemma FirstWithIdAppend(a: seq<Slot>, b: seq<Slot>, id: RefId)
    ensures FirstWithId(a + b, id) == if FirstWithId(a, id).Some? then FirstWithId(a, id) else FirstWithId(b, id)
  {
    if a != [] {
      assert (a + b)[1..] == a[1..] + b;
      FirstWithIdAppend(a[1..], b, id);
    } else {
      assert a + b == b;
    }
  }

  /** `ReferenceController.GetObjectOrNull(id) as Slot`, searching the tree. */
  function Find(t: Slot, id: RefId): (r: Option<Slot>)
    ensures r.Some? ==> r.value.refId == id
    ensures t.refId == id ==> r == Some(t)
    decreases t, 1
  {
    if t.refId == id then Some(t) else FindAll(t.children, id)
  }

  function FindAll(cs: seq<Slot>, id: RefId): (r: Option<Slot>)
    ensures r.Some? ==> r.value.refId == id
    decreases cs, 0
  {
    if cs == [] then None
    else
      var r := Find(cs[0], id);
      if r.Some? then r else FindAll(cs[1..], id)
  }

  /** The lookup is the first slot with that RefID in pre-order. */
  lemma {:induction false} FindIsFirstInPreOrder(t: Slot, id: RefId)
    ensures Find(t, id) == FirstWithId(Flatten(t), id)
    decreases t, 1
  {
    FirstWithIdAppend([t], FlattenAll(t.children), id);
    if t.refId != id {
      FindAllIsFirstInPreOrder(t.children, id);
    }
  }

  lemma {:induction false} FindAllIsFirstInPreOrder(cs: seq<Slot>, id: RefId)
    ensures FindAll(cs, id) == FirstWithId(FlattenAll(cs), id)
    decreases cs, 0
  {
    if cs != [] {
      FindIsFirstInPreOrder(cs[0], id);
      FindAllIsFirstInPreOrder(cs[1..], id);
      FirstWithIdAppend(Flatten(cs[0]), FlattenAll(cs[1..]), id);
    }
  }

  /** The tree has a slot with RefID `id`. */
  predicate Has(t: Slot, id: RefId) {
    Find(t, id).Some?
  }

  predicate HasChild(t: Slot, id: RefId) {
    exists i :: 0 <= i < |t.children| && t.children[i].refId == id
  }

  /** The index of the first child of `t` with RefID `id`. */
  function ChildIndex(t: Slot, id: RefId): (k: nat)
    requires HasChild(t, id)
    ensures k < |t.children| && t.children[k].refId == id
    ensures forall i :: 0 <= i < k ==> t.children[i].refId != id
  {
    ChildIndexFrom(t.children, id, 0)
  }

  function ChildIndexFrom(cs: seq<Slot>, id: RefId, from: nat): (k: nat)
    requires from <= |cs|
    requires exists i :: from <= i < |cs| && cs[i].refId == id
    ensures from <= k < |cs| && cs[k].refId == id
    ensures forall i :: from <= i < k ==> cs[i].refId != id
    decreases |cs| - from
  {
    if cs[from].refId == id then from else ChildIndexFrom(cs, id, from + 1)
  }

  /** `slot.Parent` for the slot the lookup finds: the first slot in pre-order
    * that has a child with RefID `id`. */
  function FindParent(t: Slot, id: RefId): (r: Option<Slot>)
    ensures r.Some? ==> HasChild(r.value, id)
    decreases t, 1
  {
    if HasChild(t, id) then Some(t) else FindParentAll(t.children, id)
  }

  function FindParentAll(cs: seq<Slot>, id: RefId): (r: Option<Slot>)
    ensures r.Some? ==> HasChild(r.value, id)
    decreases cs, 0
  {
    if cs == [] then None
    else
      var r := FindParent(cs[0], id);
      if r.Some? then r else FindParentAll(cs[1..], id)
  }

  /** Every slot but the root has a parent. */
  lemma {:induction false} FoundSlotHasParent(t: Slot, id: RefId)
    requires Has(t, id) && t.refId != id
    ensures FindParent(t, id).Some?
    decreases t, 1
  {
    if !HasChild(t, id) {
      FoundInChildrenHasParent(t.children, id);
    }
  }

  lemma {:induction false} FoundInChildrenHasParent(cs: seq<Slot>, id: RefId)
    requires FindAll(cs, id).Some?
    requires forall i :: 0 <= i < |cs| ==> cs[i].refId != id
    ensures FindParentAll(cs, id).Some?
    decreases cs, 0
  {
    if Find(cs[0], id).Some? {
      FoundSlotHasParent(cs[0], id);
    } else {
      FoundInChildrenHasParent(cs[1..], id);
    }
  }

  /** The parent the search finds is itself a slot of the tree. */
  lemma {:induction false} FindParentInTree(t: Slot, id: RefId)
    requires FindParent(t, id).Some?
    ensures Has(t, FindParent(t, id).value.refId)
    decreases t, 1
  {
    if !HasChild(t, id) {
      FindParentAllInTree(t.children, id);
    }
  }

  lemma {:induction false} FindParentAllInTree(cs: seq<Slot>, id: RefId)
    requires FindParentAll(cs, id).Some?
    ensures FindAll(cs, FindParentAll(cs, id).value.refId).Some?
    decreases cs, 0
  {
    var q := FindParentAll(cs, id).value;
    if FindParent(cs[0], id).Some? {
      FindParentInTree(cs[0], id);
    } else {
      FindParentAllInTree(cs[1..], id);
      if Find(cs[0], q.refId).None? {
        assert FindAll(cs, q.refId) == FindAll(cs[1..], q.refId);
      }
    }
  }

  /** The largest RefID in use. */
  function MaxId(t: Slot): (m: RefId)
    ensures forall s :: s in Flatten(t) ==> s.refId <= m
    decreases t, 1
  {
    var below := MaxIdAll(t.children);
    if below > t.refId then below else t.refId
  }

  function MaxIdAll(cs: seq<Slot>): (m: RefId)
    ensures forall s :: s in FlattenAll(cs) ==> s.refId <= m
    decreases cs, 0
  {
    if cs == [] then 0
    else
      var a := MaxId(cs[0]);
      var b := MaxIdAll(cs[1..]);
      if a > b then a else b
  }

  /** The RefID a freshly added slot receives: one the tree does not use. */
  function FreshId(t: Slot): (id: RefId)
    ensures !Has(t, id)
  {
    FindIsFirstInPreOrder(t, MaxId(t) + 1);
    MaxId(t) + 1
  }

  // ---- edits -------------------------------------------------------------

  /** Applies `f` to the attributes of every slot with RefID `id`. */
  function UpdateAttrs(t: Slot, id: RefId, f: SlotAttrs -> SlotAttrs): (r: Slot)
    ensures r.refId == t.refId && |r.children| == |t.children|
    ensures r.attrs == if t.refId == id then f(t.attrs) else t.attrs
    ensures r.members == t.members && r.components == t.components
    decreases t
  {
    Slot(t.refId, if t.refId == id then f(t.attrs) else t.attrs, t.members, t.components,
      seq(|t.children|, i requires 0 <= i < |t.children| => UpdateAttrs(t.children[i], id, f)))
  }

  /** The attributes of the slot the lookup finds. */
  function AttrsOf(t: Slot, id: RefId): Option<SlotAttrs> {
    var s := Find(t, id);
    if s.Some? then Some(s.value.attrs) else None
  }

  /** Updating one slot's attributes gives that slot `f` of its old attributes,
    * keeps every other slot's attributes, and keeps the set of slots. */
  lemma {:induction false} UpdateAttrsEffect(t: Slot, id: RefId, f: SlotAttrs -> SlotAttrs, k: RefId)
    ensures Has(UpdateAttrs(t, id, f), k) == Has(t, k)
    ensures AttrsOf(UpdateAttrs(t, id, f), k) ==
      if k == id && Has(t, k) then Some(f(AttrsOf(t, k).value)) else AttrsOf(t, k)
    decreases t, 1
  {
    var r := UpdateAttrs(t, id, f);
    if t.refId != k {
      UpdateAttrsEffectAll(t.children, r.children, id, f, k);
    }
  }

  lemma {:induction false} UpdateAttrsEffectAll(cs: seq<Slot>, rs: seq<Slot>, id: RefId, f: SlotAttrs -> SlotAttrs, k: RefId)
    requires |rs| == |cs| && forall i :: 0 <= i < |cs| ==> rs[i] == UpdateAttrs(cs[i], id, f)
    ensures FindAll(rs, k).Some? == FindAll(cs, k).Some?
    ensures FindAll(rs, k).Some? ==>
      FindAll(rs, k).value.attrs == if k == id then f(FindAll(cs, k).value.attrs) else FindAll(cs, k).value.attrs
    decreases cs, 0
  {
    if cs != [] {
      UpdateAttrsEffect(cs[0], id, f, k);
      UpdateAttrsEffectAll(cs[1..], rs[1..], id, f, k);
    }
  }

  /** Gives every slot with RefID `id` the children `cs` (the slots under a
    * replaced slot are not searched further). */
  function ReplaceChildren(t: Slot, id: RefId, cs: seq<Slot>): (r: Slot)
    ensures r.refId == t.refId && r.attrs == t.attrs
    ensures r.members == t.members && r.components == t.components
    decreases t
  {
    if t.refId == id then t.(children := cs)
    else t.(children := seq(|t.children|, i requires 0 <= i < |t.children| => ReplaceChildren(t.children[i], id, cs)))
  }

  /** After replacing the children of the slot with RefID `id`, the lookup of
    * `id` finds that slot with exactly the new children. */
  lemma {:induction false} ReplaceChildrenEffect(t: Slot, id: RefId, cs: seq<Slot>)
    requires Has(t, id)
    ensures Find(ReplaceChildren(t, id, cs), id) == Some(Find(t, id).value.(children := cs))
    decreases t, 1
  {
    if t.refId != id {
      var r := ReplaceChildren(t, id, cs);
      ReplaceChildrenEffectAll(t.children, r.children, id, cs);
    }
  }

  lemma {:induction false} ReplaceChildrenEffectAll(xs: seq<Slot>, rs: seq<Slot>, id: RefId, cs: seq<Slot>)
    requires FindAll(xs, id).Some?
    requires |rs| == |xs| && forall i :: 0 <= i < |xs| ==> rs[i] == ReplaceChildren(xs[i], id, cs)
    ensures FindAll(rs, id) == Some(FindAll(xs, id).value.(children := cs))
    decreases xs, 0
  {
    if Find(xs[0], id).Some? {
      ReplaceChildrenEffect(xs[0], id, cs);
    } else {
      ReplaceChildrenKeepsMissing(xs[0], id, cs);
      ReplaceChildrenEffectAll(xs[1..], rs[1..], id, cs);
    }
  }

  /** A tree without `id` is left as it is. */
  lemma {:induction false} ReplaceChildrenKeepsMissing(t: Slot, id: RefId, cs: seq<Slot>)
    requires !Has(t, id)
    ensures ReplaceChildren(t, id, cs) == t
    decreases t, 1
  {
    var r := ReplaceChildren(t, id, cs);
    ReplaceChildrenKeepsMissingAll(t.children, r.children, id, cs);
    assert r.children == t.children;
  }

  lemma {:induction false} ReplaceChildrenKeepsMissingAll(xs: seq<Slot>, rs: seq<Slot>, id: RefId, cs: seq<Slot>)
    requires FindAll(xs, id).None?
    requires |rs| == |xs| && forall i :: 0 <= i < |xs| ==> rs[i] == ReplaceChildren(xs[i], id, cs)
    ensures rs == xs
    decreases xs, 0
  {
    if xs != [] {
      ReplaceChildrenKeepsMissing(xs[0], id, cs);
      ReplaceChildrenKeepsMissingAll(xs[1..], rs[1..], id, cs);
    }
  }

  // ---- components --------------------------------------------------------

  function FirstComponentWithId(cs: seq<Component>, id: RefId): (r: Option<Component>)
    ensures r.Some? ==> r.value in cs && r.value.refId == id
    ensures r.None? <==> forall c :: c in cs ==> c.refId != id
  {
    if cs == [] then None else if cs[0].refId == id then Some(cs[0]) else FirstComponentWithId(cs[1..], id)
  }

  lemma FirstComponentWithIdAppend(a: seq<Component>, b: seq<Component>, id: RefId)
    ensures FirstComponentWithId(a + b, id) ==
      if FirstComponentWithId(a, id).Some? then FirstComponentWithId(a, id) else FirstComponentWithId(b, id)
  {
    if a != [] {
      assert (a + b)[1..] == a[1..] + b;
      FirstComponentWithIdAppend(a[1..], b, id);
    } else {
      assert a + b == b;
    }
  }

  /** `ReferenceController.GetObjectOrNull(id) as Component`, searching the
    * slot's own components before its children. */
  function FindComponent(t: Slot, id: RefId): (r: Option<Component>)
    ensures r.Some? ==> r.value.refId == id
    decreases t, 1
  {
    var c := FirstComponentWithId(t.components, id);
    if c.Some? then c else FindComponentAll(t.children, id)
  }

  function FindComponentAll(cs: seq<Slot>, id: RefId): (r: Option<Component>)
    ensures r.Some? ==> r.value.refId == id
    decreases cs, 0
  {
    if cs == [] then None
    else
      var r := FindComponent(cs[0], id);
      if r.Some? then r else FindComponentAll(cs[1..], id)
  }

  /** The components of the slots `ss`, slot after slot. */
  function ComponentsOf(ss: seq<Slot>): seq<Component> {
    if ss == [] then [] else ss[0].components + ComponentsOf(ss[1..])
  }

  lemma {:induction false} ComponentsOfAppend(a: seq<Slot>, b: seq<Slot>)
    ensures ComponentsOf(a + b) == ComponentsOf(a) + ComponentsOf(b)
  {
    if a == [] {
      assert a + b == b;
    } else {
      assert (a + b)[0] == a[0];
      assert (a + b)[1..] == a[1..] + b;
      ComponentsOfAppend(a[1..], b);
    }
  }

  /** The component lookup is the first component with that RefID when the
    * slots are visited in pre-order and each slot's components in order. */
  lemma {:induction false} FindComponentIsFirstInPreOrder(t: Slot, id: RefId)
    ensures FindComponent(t, id) == FirstComponentWithId(ComponentsOf(Flatten(t)), id)
    decreases t, 1
  {
    ComponentsOfAppend([t], FlattenAll(t.children));
    assert ComponentsOf([t]) == t.components;
    FirstComponentWithIdAppend(t.components, ComponentsOf(FlattenAll(t.children)), id);
    FindComponentAllIsFirstInPreOrder(t.children, id);
  }

  lemma {:induction false} FindComponentAllIsFirstInPreOrder(cs: seq<Slot>, id: RefId)
    ensures FindComponentAll(cs, id) == FirstComponentWithId(ComponentsOf(FlattenAll(cs)), id)
    decreases cs, 0
  {
    if cs != [] {
      FindComponentIsFirstInPreOrder(cs[0], id);
      FindComponentAllIsFirstInPreOrder(cs[1..], id);
      ComponentsOfAppend(Flatten(cs[0]), FlattenAll(cs[1..]));
      FirstComponentWithIdAppend(ComponentsOf(Flatten(cs[0])), ComponentsOf(FlattenAll(cs[1..])), id);
    }
  }

  /** `f` applied to every component of `cs` with RefID `id`. */
  function MapComponents(cs: seq<Component>, id: RefId, f: Component -> Component): (r: seq<Component>)
    ensures |r| == |cs|
  {
    seq(|cs|, j requires 0 <= j < |cs| => if cs[j].refId == id then f(cs[j]) else cs[j])
  }

  /** Applies `f` to every component with RefID `id`. */
  function UpdateComponent(t: Slot, id: RefId, f: Component -> Component): (r: Slot)
    ensures r.refId == t.refId && r.attrs == t.attrs && r.members == t.members
    ensures r.components == MapComponents(t.components, id, f)
    ensures |r.children| == |t.children|
    decreases t
  {
    t.(components := MapComponents(t.components, id, f),
       children := seq(|t.children|, i requires 0 <= i < |t.children| => UpdateComponent(t.children[i], id, f)))
  }

  /** An edit that keeps a component's RefID. */
  ghost predicate KeepsRefId(f: Component -> Component) {
    forall c :: f(c).refId == c.refId
  }

  lemma {:induction false} FirstComponentOfMap(cs: seq<Component>, id: RefId, f: Component -> Component, k: RefId)
    requires KeepsRefId(f)
    ensures FirstComponentWithId(MapComponents(cs, id, f), k) ==
      if k == id && FirstComponentWithId(cs, k).Some? then Some(f(FirstComponentWithId(cs, k).value))
      else FirstComponentWithId(cs, k)
  {
    if cs != [] {
      assert MapComponents(cs, id, f)[1..] == MapComponents(cs[1..], id, f);
      assert f(cs[0]).refId == cs[0].refId;
      FirstComponentOfMap(cs[1..], id, f, k);
    }
  }

  /** Editing the component with RefID `id` gives that component `f` of its
    * old value, and leaves what the lookup of every other RefID finds. */
  lemma {:induction false} UpdateComponentEffect(t: Slot, id: RefId, f: Component -> Component, k: RefId)
    requires KeepsRefId(f)
    ensures FindComponent(UpdateComponent(t, id, f), k) ==
      if k == id && FindComponent(t, k).Some? then Some(f(FindComponent(t, k).value)) else FindComponent(t, k)
    decreases t, 1
  {
    var r := UpdateComponent(t, id, f);
    FirstComponentOfMap(t.components, id, f, k);
    UpdateComponentEffectAll(t.children, r.children, id, f, k);
  }

  lemma {:induction false} UpdateComponentEffectAll(cs: seq<Slot>, rs: seq<Slot>, id: RefId, f: Component -> Component, k: RefId)
    requires KeepsRefId(f)
    requires |rs| == |cs| && forall i :: 0 <= i < |cs| ==> rs[i] == UpdateComponent(cs[i], id, f)
    ensures FindComponentAll(rs, k) ==
      if k == id && FindComponentAll(cs, k).Some? then Some(f(FindComponentAll(cs, k).value)) else FindComponentAll(cs, k)
    decreases cs, 0
  {
    if cs != [] {
      UpdateComponentEffect(cs[0], id, f, k);
      UpdateComponentEffectAll(cs[1..], rs[1..], id, f, k);
    }
  }

  /** Editing components leaves the slots: the same slots are found, with the
    * same attributes. */
  lemma {:induction false} UpdateComponentKeepsSlots(t: Slot, id: RefId, f: Component -> Component, k: RefId)
    ensures Has(UpdateComponent(t, id, f), k) == Has(t, k)
    ensures AttrsOf(UpdateComponent(t, id, f), k) == AttrsOf(t, k)
    decreases t, 1
  {
    var r := UpdateComponent(t, id, f);
    if t.refId != k {
      UpdateComponentKeepsSlotsAll(t.children, r.children, id, f, k);
    }
  }

  lemma {:induction false} UpdateComponentKeepsSlotsAll(cs: seq<Slot>, rs: seq<Slot>, id: RefId, f: Component -> Component, k: RefId)
    requires |rs| == |cs| && forall i :: 0 <= i < |cs| ==> rs[i] == UpdateComponent(cs[i], id, f)
    ensures FindAll(rs, k).Some? == FindAll(cs, k).Some?
    ensures FindAll(rs, k).Some? ==> FindAll(rs, k).value.attrs == FindAll(cs, k).value.attrs
    decreases cs, 0
  {
    if cs != [] {
      UpdateComponentKeepsSlots(cs[0], id, f, k);
      UpdateComponentKeepsSlotsAll(cs[1..], rs[1..], id, f, k);
    }
  }
}
