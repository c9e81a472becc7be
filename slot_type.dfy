/** The GraphQL view of a slot: its name, its sync members and its
  * components looked up by type name. */
module SlotType {
  import opened Wrappers
  import opened Engine
  import SyncMembers

  /** `Name`: a slot without a name shows as `""`. */
  function Name(s: Slot): (r: string)
    ensures s.attrs.name.Some? ==> r == s.attrs.name.value
    ensures s.attrs.name.None? ==> r == ""
  {
    s.attrs.name.GetOr("")
  }

  /** `AllSyncMembers` ("syncMembers"). */
  function AllSyncMembers(s: Slot): (r: seq<SyncMembers.MemberView>)
    ensures |r| == |s.members|
    ensures forall i :: 0 <= i < |r| ==> r[i] == SyncMembers.Create(s.members[i], i)
  {
    SyncMembers.AllViews(s.members)
  }

  /** `GetSyncMember(name)` ("syncMemberByName"): the member at the first
    * index registered under `name`, or null. */
  method GetSyncMember(s: Slot, name: string) returns (r: Option<SyncMembers.MemberView>)
    ensures r.None? <==> forall i :: 0 <= i < |s.members| ==> s.members[i].name != name
    ensures r.Some? ==> r.value.index < |s.members| && s.members[r.value.index].name == name
    ensures r.Some? ==> r.value == SyncMembers.Create(s.members[r.value.index], r.value.index)
    ensures r.Some? ==> forall i :: 0 <= i < r.value.index ==> s.members[i].name != name
  {
    r := SyncMembers.FindByName(s.members, name);
  }

  /** A component's runtime type is called `typeName`, by its short name or by
    * its full name (a type without a full name matches only by short name). */
  predicate IsOfType(c: Component, typeName: string) {
    c.typeInfo.name == typeName || c.typeInfo.fullName == Some(typeName)
  }

  /** `GetComponent(typeName)` ("componentByType"): `FirstOrDefault`. */
  function GetComponent(s: Slot, typeName: string): (r: Option<Component>)
    ensures r.None? <==> forall j :: 0 <= j < |s.components| ==> !IsOfType(s.components[j], typeName)
    ensures r.Some? ==> IsOfType(r.value, typeName) && r.value in s.components
  {
    FirstOfType(s.components, typeName)
  }

  function FirstOfType(cs: seq<Component>, typeName: string): (r: Option<Component>)
    ensures r.None? <==> forall j :: 0 <= j < |cs| ==> !IsOfType(cs[j], typeName)
    ensures r.Some? ==> IsOfType(r.value, typeName) && r.value in cs
  {
    if cs == [] then None
    else if IsOfType(cs[0], typeName) then Some(cs[0])
    else FirstOfType(cs[1..], typeName)
  }

  /** `GetComponents(typeName)` ("componentsByType"): `Where`, in slot order. */
  function GetComponents(s: Slot, typeName: string): (r: seq<Component>)
    ensures forall c :: c in r <==> c in s.components && IsOfType(c, typeName)
  {
    OfType(s.components, typeName)
  }

  function OfType(cs: seq<Component>, typeName: string): (r: seq<Component>)
    ensures |r| <= |cs|
    ensures forall c :: c in r <==> c in cs && IsOfType(c, typeName)
  {
    if cs == [] then []
    else (if IsOfType(cs[0], typeName) then [cs[0]] else []) + OfType(cs[1..], typeName)
  }

  /** The filter keeps the slot's order: filtering a concatenation is the
    * concatenation of the filtered parts. */
  lemma {:induction false} OfTypeAppend(a: seq<Component>, b: seq<Component>, typeName: string)
    ensures OfType(a + b, typeName) == OfType(a, typeName) + OfType(b, typeName)
  {
    if a == [] {
      assert a + b == b;
    } else {
      assert (a + b)[0] == a[0];
      assert (a + b)[1..] == a[1..] + b;
      OfTypeAppend(a[1..], b, typeName);
    }
  }

  /** The single lookup is the first of the components the filter returns. */
  lemma {:induction false} GetComponentIsFirstOfGetComponents(s: Slot, typeName: string)
    ensures GetComponent(s, typeName) ==
      if GetComponents(s, typeName) == [] then None else Some(GetComponents(s, typeName)[0])
  {
    FirstOfTypeIsFirstOfFilter(s.components, typeName);
  }

  lemma {:induction false} FirstOfTypeIsFirstOfFilter(cs: seq<Component>, typeName: string)
    ensures FirstOfType(cs, typeName) ==
      if OfType(cs, typeName) == [] then None else Some(OfType(cs, typeName)[0])
  {
    if cs != [] && !IsOfType(cs[0], typeName) {
      FirstOfTypeIsFirstOfFilter(cs[1..], typeName);
    }
  }
}
