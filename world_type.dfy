/** The GraphQL view of a world and of its users: the name defaults and the
  * three slot searches. `RefID` strings are read with the engine's parser,
  * given as `parse` (`None` where `RefID.Parse` throws). */
module WorldType {
  import opened Wrappers
  import opened Engine
  import opened SceneGraph

  /** `Name`: an unnamed world shows as `""`. */
  function Name(w: World): (r: string)
    reads w
    ensures w.name.Some? ==> r == w.name.value
    ensures w.name.None? ==> r == ""
  {
    w.name.GetOr("")
  }

  /** `WorldUserType.UserId` */
  function UserId(u: User): (r: string)
    ensures u.userId.Some? ==> r == u.userId.value
    ensures u.userId.None? ==> r == ""
  {
    u.userId.GetOr("")
  }

  /** `WorldUserType.UserName` */
  function UserName(u: User): (r: string)
    ensures u.userName.Some? ==> r == u.userName.value
    ensures u.userName.None? ==> r == ""
  {
    u.userName.GetOr("")
  }

  /** `WorldUserType.Role`: the role's name, or `""` for a user without a role. */
  function RoleName(u: User): (r: string)
    ensures u.role.Some? ==> r == u.role.value.name
    ensures u.role.None? ==> r == ""
  {
    if u.role.Some? then u.role.value.name else ""
  }

  /** `FindSlotByRefId`: null when the text is not a RefID or no slot has it. */
  function FindSlotByRefId(w: World, refId: string, parse: string -> Option<RefId>): (r: Option<Slot>)
    reads w
    ensures r.None? <==> parse(refId).None? || !Has(w.root, parse(refId).value)
    ensures r.Some? ==> r.value.refId == parse(refId).value && r.value in Flatten(w.root)
    ensures r.Some? ==> r == FirstWithId(Flatten(w.root), parse(refId).value)
  {
    var id := parse(refId);
    if id.None? then None
    else
      FindIsFirstInPreOrder(w.root, id.value);
      Find(w.root, id.value)
  }

  /** A slot's `Name == name`; a slot without a name matches no name. */
  predicate IsNamed(s: Slot, name: string) {
    s.attrs.name == Some(name)
  }

  /** The slots of `ss` named `name`, in order. */
  function SlotsNamed(ss: seq<Slot>, name: string): (r: seq<Slot>)
    ensures |r| <= |ss|
  {
    if ss == [] then []
    else (if IsNamed(ss[0], name) then [ss[0]] else []) + SlotsNamed(ss[1..], name)
  }

  /** The search keeps exactly the slots with that name. */
  lemma {:induction false} SlotsNamedMembers(ss: seq<Slot>, name: string)
    ensures forall s :: s in SlotsNamed(ss, name) <==> s in ss && IsNamed(s, name)
  {
    if ss != [] {
      SlotsNamedMembers(ss[1..], name);
      assert forall s :: s in ss <==> s == ss[0] || s in ss[1..];
    }
  }

  lemma {:induction false} SlotsNamedAppend(a: seq<Slot>, b: seq<Slot>, name: string)
    ensures SlotsNamed(a + b, name) == SlotsNamed(a, name) + SlotsNamed(b, name)
  {
    if a == [] {
      assert a + b == b;
    } else {
      var head := if IsNamed(a[0], name) then [a[0]] else [];
      assert (a + b)[0] == a[0];
      assert (a + b)[1..] == a[1..] + b;
      assert SlotsNamed(a + b, name) == head + SlotsNamed(a[1..] + b, name);
      assert SlotsNamed(a, name) == head + SlotsNamed(a[1..], name);
      SlotsNamedAppend(a[1..], b, name);
    }
  }

  /** `FindSlotsRecursive(parent, name, results)`: appends to `results`, in
    * pre-order with siblings in order, every slot below `parent` (not
    * `parent` itself) that is named `name`. */
  method FindSlotsRecursive(parent: Slot, name: string, results: seq<Slot>) returns (out: seq<Slot>)
    ensures out == results + SlotsNamed(FlattenAll(parent.children), name)
    decreases parent, 0
  {
    out := results;
    var i := 0;
    while i < |parent.children|
      invariant 0 <= i <= |parent.children|
      invariant out == results + SlotsNamed(FlattenAll(parent.children[..i]), name)
    {
      ghost var previous := out;
      out := SearchChild(parent.children[i], name, out);
      SearchStep(parent.children, i, name, results, previous, out);
      i := i + 1;
    }
    assert parent.children[..i] == parent.children;
  }

  /** The body of the `foreach`: adds `child` if it matches, then searches below it. */
  method SearchChild(child: Slot, name: string, results: seq<Slot>) returns (out: seq<Slot>)
    ensures out == results + (if IsNamed(child, name) then [child] else []) + SlotsNamed(FlattenAll(child.children), name)
    decreases child, 1
  {
    out := results;
    if IsNamed(child, name) {
      out := out + [child];
    }
    out := FindSlotsRecursive(child, name, out);
  }

  /** One more child searched: its match, if it is one, then its own subtree. */
  lemma SearchStep(cs: seq<Slot>, i: nat, name: string, results: seq<Slot>, previous: seq<Slot>, out: seq<Slot>)
    requires i < |cs|
    requires previous == results + SlotsNamed(FlattenAll(cs[..i]), name)
    requires out == previous + (if IsNamed(cs[i], name) then [cs[i]] else []) + SlotsNamed(FlattenAll(cs[i].children), name)
    ensures out == results + SlotsNamed(FlattenAll(cs[..i + 1]), name)
  {
    assert cs[..i + 1] == cs[..i] + [cs[i]];
    FlattenAllAppend(cs[..i], cs[i]);
    SlotsNamedAppend(FlattenAll(cs[..i]), Flatten(cs[i]), name);
    SlotsNamedAppend([cs[i]], FlattenAll(cs[i].children), name);
    assert SlotsNamed([cs[i]], name) == if IsNamed(cs[i], name) then [cs[i]] else [];
  }

  /** `FindSlotByName(name, searchChildren)`: with `searchChildren` every
    * named slot of the tree but the root, in pre-order; without it the named
    * direct children of the root, in order. */
  method FindSlotByName(w: World, name: string, searchChildren: bool) returns (slots: seq<Slot>)
    ensures searchChildren ==> slots == SlotsNamed(FlattenAll(w.root.children), name)
    ensures !searchChildren ==> slots == SlotsNamed(w.root.children, name)
  {
    if searchChildren {
      slots := FindSlotsRecursive(w.root, name, []);
    } else {
      slots := [];
      var children := w.root.children;
      var i := 0;
      while i < |children|
        invariant 0 <= i <= |children|
        invariant slots == SlotsNamed(children[..i], name)
      {
        assert children[..i + 1] == children[..i] + [children[i]];
        SlotsNamedAppend(children[..i], [children[i]], name);
        if IsNamed(children[i], name) {
          slots := slots + [children[i]];
        }
        i := i + 1;
      }
      assert children[..i] == children;
    }
  }

  lemma {:induction false} ChildrenAreFlattened(cs: seq<Slot>, i: nat)
    requires i < |cs|
    ensures cs[i] in FlattenAll(cs)
  {
    if i > 0 {
      ChildrenAreFlattened(cs[1..], i - 1);
    }
  }

  /** The direct-children search finds a subset of what the recursive search finds. */
  lemma DirectMatchesAreRecursiveMatches(root: Slot, name: string, s: Slot)
    requires s in SlotsNamed(root.children, name)
    ensures s in SlotsNamed(FlattenAll(root.children), name)
  {
    SlotsNamedMembers(root.children, name);
    SlotsNamedMembers(FlattenAll(root.children), name);
    var i :| 0 <= i < |root.children| && root.children[i] == s;
    ChildrenAreFlattened(root.children, i);
  }
}
