/** The GraphQL view of a component: its type names and its sync members,
  * enumerated, looked up by name and looked up by index. */
module ComponentType {
  import opened Wrappers
  import opened Engine
  import SyncMembers

  /** `TypeName` */
  function TypeName(c: Component): string {
    c.typeInfo.name
  }

  /** `TypeFullName`: the full name, or the short name for a type without one. */
  function TypeFullName(c: Component): (r: string)
    ensures c.typeInfo.fullName.Some? ==> r == c.typeInfo.fullName.value
    ensures c.typeInfo.fullName.None? ==> r == TypeName(c)
  {
    c.typeInfo.fullName.GetOr(c.typeInfo.name)
  }

  /** `SyncMemberCount` */
  function SyncMemberCount(c: Component): nat {
    |c.members|
  }

  /** `AllSyncMembers` ("syncMembers"): one view per index, in index order. */
  function AllSyncMembers(c: Component): (r: seq<SyncMembers.MemberView>)
    ensures |r| == SyncMemberCount(c)
    ensures forall i :: 0 <= i < |r| ==> r[i] == SyncMembers.Create(c.members[i], i)
  {
    SyncMembers.AllViews(c.members)
  }

  /** `GetSyncMember(name)` ("syncMemberByName"): the member at the first
    * index registered under `name`, or null. */
  method GetSyncMember(c: Component, name: string) returns (r: Option<SyncMembers.MemberView>)
    ensures r.None? <==> forall i :: 0 <= i < |c.members| ==> c.members[i].name != name
    ensures r.Some? ==> r.value.index < |c.members| && c.members[r.value.index].name == name
    ensures r.Some? ==> r.value == SyncMembers.Create(c.members[r.value.index], r.value.index)
    ensures r.Some? ==> forall i :: 0 <= i < r.value.index ==> c.members[i].name != name
  {
    r := SyncMembers.FindByName(c.members, name);
  }

  /** `GetSyncMemberByIndex(index)` ("syncMemberByIndex"): null out of range,
    * otherwise the entry for that index under its own name. */
  function GetSyncMemberByIndex(c: Component, index: int): (r: Option<SyncMembers.MemberView>)
    ensures r.None? <==> index < 0 || index >= SyncMemberCount(c)
    ensures r.Some? ==> r.value.index == index && r.value.name == c.members[index].name
    ensures r.Some? ==> r.value == AllSyncMembers(c)[index]
  {
    SyncMembers.ByIndex(c.members, index)
  }
}
