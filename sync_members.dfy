/** What the query layer hands out for a sync member of a slot or a
  * component: `SyncMemberTypeFactory.Create` picks the field, reference or
  * generic view by the member's kind and keeps its registered name and its
  * index on the owner. Slots and components enumerate and search their
  * members the same way, so both owners share these definitions. */
module SyncMembers {
  import opened Wrappers
  import opened Engine

  datatype MemberView =
    | SyncFieldView(name: string, index: nat, valueAsString: Option<string>)
    | SyncRefView(name: string, index: nat, target: Option<RefId>)
    | GenericSyncMemberView(name: string, index: nat)

  /** `SyncMemberTypeFactory.Create(member, name, index)` */
  function Create(m: SyncMember, index: nat): (v: MemberView)
    ensures v.name == m.name && v.index == index
    ensures v.SyncFieldView? <==> m.kind.FieldMember?
    ensures v.SyncRefView? <==> m.kind.RefMember?
    ensures v.SyncFieldView? ==> v.valueAsString == m.kind.value
    ensures v.SyncRefView? ==> v.target == m.kind.target
  {
    match m.kind
    case FieldMember(value) => SyncFieldView(m.name, index, value)
    case RefMember(target) => SyncRefView(m.name, index, target)
    case OtherMember => GenericSyncMemberView(m.name, index)
  }

  /** `AllSyncMembers`: one view per index from 0 to `SyncMemberCount - 1`. */
  function AllViews(members: seq<SyncMember>): (r: seq<MemberView>)
    ensures |r| == |members|
    ensures forall i :: 0 <= i < |r| ==> r[i].index == i && r[i].name == members[i].name
  {
    seq(|members|, i requires 0 <= i < |members| => Create(members[i], i))
  }

  /** The first index at or after `from` whose member is registered as `name`. */
  function FirstNamedFrom(members: seq<SyncMember>, name: string, from: nat): (r: Option<nat>)
    requires from <= |members|
    ensures r.Some? ==> from <= r.value < |members| && members[r.value].name == name
    ensures r.Some? ==> forall i :: from <= i < r.value ==> members[i].name != name
    ensures r.None? <==> forall i :: from <= i < |members| ==> members[i].name != name
    decreases |members| - from
  {
    if from == |members| then None
    else if members[from].name == name then Some(from)
    else FirstNamedFrom(members, name, from + 1)
  }

  function FirstNamed(members: seq<SyncMember>, name: string): Option<nat> {
    FirstNamedFrom(members, name, 0)
  }

  /** The view of the first member named `name`, or null. */
  function ByName(members: seq<SyncMember>, name: string): (r: Option<MemberView>)
    ensures r.None? <==> forall i :: 0 <= i < |members| ==> members[i].name != name
    ensures r.Some? ==> r.value.name == name && r.value.index < |members|
    ensures r.Some? ==> r.value == Create(members[r.value.index], r.value.index)
    ensures r.Some? ==> forall i :: 0 <= i < r.value.index ==> members[i].name != name
  {
    var k := FirstNamed(members, name);
    if k.Some? then Some(Create(members[k.value], k.value)) else None
  }

  /** The `for` loop of `GetSyncMember(name)`: returns at the first index whose
    * name matches. */
  method FindByName(members: seq<SyncMember>, name: string) returns (r: Option<MemberView>)
    ensures r == ByName(members, name)
  {
    var i := 0;
    while i < |members|
      invariant 0 <= i <= |members|
      invariant FirstNamedFrom(members, name, i) == FirstNamed(members, name)
    {
      if members[i].name == name {
        return Some(Create(members[i], i));
      }
      i := i + 1;
    }
    return None;
  }

  /** `GetSyncMemberByIndex`: null for an index below 0 or at or above the member count. */
  function ByIndex(members: seq<SyncMember>, index: int): (r: Option<MemberView>)
    ensures r.None? <==> index < 0 || index >= |members|
    ensures r.Some? ==> r.value == Create(members[index], index)
  {
    if index < 0 || index >= |members| then None else Some(Create(members[index], index))
  }

  /** Looking a member up by its index gives the entry that enumeration lists
    * at that position. */
  lemma ByIndexIsEnumerated(members: seq<SyncMember>, index: int)
    requires 0 <= index < |members|
    ensures ByIndex(members, index) == Some(AllViews(members)[index])
  {
  }

  /** Looking a member up by name gives the first enumerated entry with that name. */
  lemma ByNameIsFirstEnumerated(members: seq<SyncMember>, name: string)
    ensures ByName(members, name).Some? ==>
      var k := ByName(members, name).value.index;
      k < |members| && ByName(members, name).value == AllViews(members)[k] &&
      forall i :: 0 <= i < k ==> AllViews(members)[i].name != name
  {
  }
}
