/** The engine pre-patcher: it groups the discovered patches by the assembly
  * they target, skips an assembly that already carries this patcher's
  * version label, backs an unpatched assembly up as `.original` (or restores
  * a previously patched one from its backup), applies the patches in order,
  * stamps the version label into the assembly's description attribute and
  * finally renames the files the patches retire to `.original`.
  *
  * The target directory is a map from file names, relative to the
  * directory, to file contents. An assembly's contents are the custom
  * attributes the patcher reads and writes and the names of the patches
  * applied to it; what a patch does to the IL, and whether it succeeds,
  * is a parameter. */
module AssemblyPatcher {
  import opened Wrappers
  import opened Text

  /** `PATCHED_LABEL` */
  const PatchedLabel: string := "EnginePrePatched:"

  const DescriptionAttributeName: string := "AssemblyDescriptionAttribute"

  /** A constructor argument of a custom attribute: a string, or anything else. */
  datatype Argument = StringArgument(value: string) | OtherArgument

  datatype Attribute = Attribute(typeName: string, arguments: seq<Argument>)

  /** An assembly file: the assembly's custom attributes, its main module's
    * custom attributes, and the patches applied so far. */
  datatype Image = Image(attributes: seq<Attribute>, moduleAttributes: seq<Attribute>, applied: seq<string>)

  /** `IAssemblyPatch` */
  datatype Patch = Patch(name: string, targetAssemblyPath: string, removeFiles: seq<string>)

  /** What `Process` lets escape: `First()` finding no description attribute
    * (`InvalidOperationException`), `RemoveAt(0)` on a description without
    * arguments, and reading an assembly file that does not exist. */
  datatype Fault = NoDescriptionAttribute | EmptyDescription | AssemblyFileNotFound

  // ---- the version label -------------------------------------------------

  /** `(ctorArg.Value as string) ?? ""` */
  function ArgumentText(a: Argument): string {
    if a.StringArgument? then a.value else ""
  }

  /** The suffix of the first argument that starts with the label. */
  function VersionIn(args: seq<Argument>): (r: Option<string>)
    ensures r.None? <==> forall i :: 0 <= i < |args| ==> !StartsWith(ArgumentText(args[i]), PatchedLabel)
  {
    if args == [] then None
    else if StartsWith(ArgumentText(args[0]), PatchedLabel) then Some(ArgumentText(args[0])[|PatchedLabel|..])
    else VersionIn(args[1..])
  }

  /** The version is the suffix of the first labelled argument. */
  lemma {:induction false} VersionInIsFirstLabelled(args: seq<Argument>)
    requires VersionIn(args).Some?
    ensures exists i :: (0 <= i < |args| && StartsWith(ArgumentText(args[i]), PatchedLabel) &&
      VersionIn(args).value == ArgumentText(args[i])[|PatchedLabel|..] &&
      forall j :: 0 <= j < i ==> !StartsWith(ArgumentText(args[j]), PatchedLabel))
  {
    if !StartsWith(ArgumentText(args[0]), PatchedLabel) {
      VersionInIsFirstLabelled(args[1..]);
      var i :| 0 <= i < |args[1..]| && StartsWith(ArgumentText(args[1..][i]), PatchedLabel) &&
        VersionIn(args[1..]).value == ArgumentText(args[1..][i])[|PatchedLabel|..] &&
        forall j :: 0 <= j < i ==> !StartsWith(ArgumentText(args[1..][j]), PatchedLabel);
      assert args[i + 1] == args[1..][i];
      assert forall j :: 1 <= j < i + 1 ==> args[j] == args[1..][j - 1];
    }
  }

  /** The index of the first attribute named `AssemblyDescriptionAttribute`. */
  function DescriptionIndex(attrs: seq<Attribute>): (r: Option<nat>)
    ensures r.Some? ==> r.value < |attrs| && attrs[r.value].typeName == DescriptionAttributeName
    ensures r.Some? ==> forall j :: 0 <= j < r.value ==> attrs[j].typeName != DescriptionAttributeName
    ensures r.None? <==> forall j :: 0 <= j < |attrs| ==> attrs[j].typeName != DescriptionAttributeName
  {
    if attrs == [] then None
    else if attrs[0].typeName == DescriptionAttributeName then Some(0)
    else
      var k := DescriptionIndex(attrs[1..]);
      if k.Some? then Some(k.value + 1) else None
  }

  /** The label argument `SetPatcherVersion` writes. */
  function Label(version: string): Argument {
    StringArgument(PatchedLabel + version)
  }

  /** `RemoveAt(0)` then `Add`: the first argument gives way to the label. */
  function Relabelled(args: seq<Argument>, version: string): (r: Result<seq<Argument>, Fault>)
    ensures r.Err? <==> args == []
    ensures r.Ok? ==> r.value == args[1..] + [Label(version)]
  {
    if args == [] then Err(EmptyDescription) else Ok(args[1..] + [Label(version)])
  }

  /** `GetPatcherVersion` as written: `First()` throws when the assembly has no
    * description attribute, so the `is not null` test never fails. */
  function GetPatcherVersionAsWritten(img: Image): (r: Result<Option<string>, Fault>)
    ensures r.Err? <==> DescriptionIndex(img.attributes).None?
    ensures r.Ok? ==> r.value == VersionIn(img.attributes[DescriptionIndex(img.attributes).value].arguments)
  {
    var k := DescriptionIndex(img.attributes);
    if k.None? then Err(NoDescriptionAttribute) else Ok(VersionIn(img.attributes[k.value].arguments))
  }

  /** `SetPatcherVersion` as written: `First()` throws in the same case, so the
    * branch that would add a new attribute, to the main module, never runs. */
  function SetPatcherVersionAsWritten(img: Image, version: string): (r: Result<Image, Fault>)
    ensures DescriptionIndex(img.attributes).None? ==> r == Err(NoDescriptionAttribute)
    ensures r.Ok? ==> r.value.moduleAttributes == img.moduleAttributes
  {
    var k := DescriptionIndex(img.attributes);
    if k.None? then Err(NoDescriptionAttribute)
    else
      var args := Relabelled(img.attributes[k.value].arguments, version);
      if args.Err? then Err(args.error)
      else Ok(img.(attributes := img.attributes[k.value := Attribute(DescriptionAttributeName, args.value)]))
  }

  /** An assembly without a description attribute makes both as-written
    * accessors throw instead of reporting "not patched" and adding the label. */
  lemma AsWrittenThrowsWithoutDescription()
    ensures GetPatcherVersionAsWritten(Image([], [], [])) == Err(NoDescriptionAttribute)
    ensures SetPatcherVersionAsWritten(Image([], [], []), "v") == Err(NoDescriptionAttribute)
  {
  }

  /** Even past `First()`, the as-written fallback would put the label on the
    * main module, where `GetPatcherVersion` does not look. */
  lemma AsWrittenFallbackIsNotRead(version: string)
    ensures var img := Image([], [], []);
      var fallback := img.(moduleAttributes := [Attribute(DescriptionAttributeName, [Label(version)])]);
      GetPatcherVersionAsWritten(fallback) == Err(NoDescriptionAttribute)
  {
  }

  /** `GetPatcherVersion`, as intended (`FirstOrDefault`): null when there is
    * no description attribute or no argument carries the label. */
  function GetPatcherVersion(img: Image): (r: Option<string>)
    ensures DescriptionIndex(img.attributes).None? ==> r.None?
    ensures DescriptionIndex(img.attributes).Some? ==> r == VersionIn(img.attributes[DescriptionIndex(img.attributes).value].arguments)
  {
    var k := DescriptionIndex(img.attributes);
    if k.None? then None else VersionIn(img.attributes[k.value].arguments)
  }

  /** Where the as-written reader answers, the intended one agrees. */
  lemma GetPatcherVersionAgrees(img: Image)
    requires GetPatcherVersionAsWritten(img).Ok?
    ensures GetPatcherVersion(img) == GetPatcherVersionAsWritten(img).value
  {
  }

  /** `SetPatcherVersion`, as intended: relabel the description attribute, or
    * add one carrying just the label where the reader looks for it. */
  function SetPatcherVersion(img: Image, version: string): (r: Result<Image, Fault>)
    ensures r.Err? <==> DescriptionIndex(img.attributes).Some? && img.attributes[DescriptionIndex(img.attributes).value].arguments == []
    ensures r.Ok? ==> r.value.applied == img.applied && r.value.moduleAttributes == img.moduleAttributes
  {
    var k := DescriptionIndex(img.attributes);
    if k.None? then Ok(img.(attributes := img.attributes + [Attribute(DescriptionAttributeName, [Label(version)])]))
    else
      var args := Relabelled(img.attributes[k.value].arguments, version);
      if args.Err? then Err(args.error)
      else Ok(img.(attributes := img.attributes[k.value := Attribute(DescriptionAttributeName, args.value)]))
  }

  lemma LabelIsLabelled(version: string)
    ensures StartsWith(ArgumentText(Label(version)), PatchedLabel)
    ensures ArgumentText(Label(version))[|PatchedLabel|..] == version
  {
    assert (PatchedLabel + version)[..|PatchedLabel|] == PatchedLabel;
  }

  /** The assembly has no description attribute, or its first one has the
    * single argument of `AssemblyDescriptionAttribute(string)`. */
  predicate SingleDescription(img: Image) {
    var k := DescriptionIndex(img.attributes);
    k.Some? ==> |img.attributes[k.value].arguments| == 1
  }

  /** Reading back a version just written gives that version, for an
    * assembly without a description attribute and for one whose description
    * has a single argument; the result again has a single-argument
    * description. */
  lemma {:induction false} VersionRoundTrip(img: Image, version: string)
    requires SingleDescription(img)
    ensures SetPatcherVersion(img, version).Ok?
    ensures GetPatcherVersion(SetPatcherVersion(img, version).value) == Some(version)
    ensures SingleDescription(SetPatcherVersion(img, version).value)
  {
    LabelIsLabelled(version);
    var k := DescriptionIndex(img.attributes);
    var out := SetPatcherVersion(img, version).value;
    if k.None? {
      var s := img.attributes + [Attribute(DescriptionAttributeName, [Label(version)])];
      assert forall j :: 0 <= j < |img.attributes| ==> s[j] == img.attributes[j];
      DescriptionIndexAt(out.attributes, |img.attributes|);
    } else {
      assert img.attributes[k.value].arguments[1..] == [];
      assert out.attributes[k.value].arguments == [Label(version)];
      assert forall j :: 0 <= j < k.value ==> out.attributes[j] == img.attributes[j];
      DescriptionIndexAt(out.attributes, k.value);
    }
  }

  /** The first description attribute is found wherever it stands. */
  lemma {:induction false} DescriptionIndexAt(attrs: seq<Attribute>, k: nat)
    requires k < |attrs| && attrs[k].typeName == DescriptionAttributeName
    requires forall j :: 0 <= j < k ==> attrs[j].typeName != DescriptionAttributeName
    ensures DescriptionIndex(attrs) == Some(k)
  {
    if k > 0 {
      assert forall j :: 0 <= j < k - 1 ==> attrs[1..][j] == attrs[j + 1];
      DescriptionIndexAt(attrs[1..], k - 1);
    }
  }

  // ---- grouping ----------------------------------------------------------

  /** The patches aimed at `target`, in discovery order. */
  function PatchesFor(patches: seq<Patch>, target: string): (r: seq<Patch>)
    ensures |r| <= |patches|
  {
    if patches == [] then []
    else (if patches[0].targetAssemblyPath == target then [patches[0]] else []) + PatchesFor(patches[1..], target)
  }

  lemma {:induction false} PatchesForAppend(a: seq<Patch>, p: Patch, target: string)
    ensures PatchesFor(a + [p], target) == PatchesFor(a, target) + (if p.targetAssemblyPath == target then [p] else [])
  {
    if a == [] {
      assert a + [p] == [p];
      assert [p][1..] == [];
    } else {
      assert (a + [p])[0] == a[0];
      assert (a + [p])[1..] == a[1..] + [p];
      PatchesForAppend(a[1..], p, target);
    }
  }

  lemma {:induction false} PatchesForMembers(patches: seq<Patch>, target: string)
    ensures forall p :: p in PatchesFor(patches, target) <==> p in patches && p.targetAssemblyPath == target
  {
    if patches != [] {
      PatchesForMembers(patches[1..], target);
      assert forall p :: p in patches <==> p == patches[0] || p in patches[1..];
    }
  }

  /** The targets of `patches`, each once, in the order they first appear. */
  function Targets(patches: seq<Patch>): (r: seq<string>)
  {
    if patches == [] then []
    else
      var before := Targets(patches[..|patches| - 1]);
      var t := patches[|patches| - 1].targetAssemblyPath;
      if t in before then before else before + [t]
  }

  lemma {:induction false} TargetsMembers(patches: seq<Patch>)
    ensures forall t :: t in Targets(patches) <==> exists i :: 0 <= i < |patches| && patches[i].targetAssemblyPath == t
    ensures forall i, j :: 0 <= i < j < |Targets(patches)| ==> Targets(patches)[i] != Targets(patches)[j]
  {
    if patches != [] {
      var init := patches[..|patches| - 1];
      TargetsMembers(init);
      assert forall i :: 0 <= i < |init| ==> init[i] == patches[i];
    }
  }

  /** The `foreach` that fills `patchesByAssemblies`: a new target starts a
    * list, a known one gets the patch appended. `keys` is the dictionary's
    * enumeration order, which is the order the targets were first added. */
  method GroupPatches(patches: seq<Patch>) returns (keys: seq<string>, groups: map<string, seq<Patch>>)
    ensures keys == Targets(patches)
    ensures forall t :: t in groups <==> t in keys
    ensures forall t :: t in groups ==> groups[t] == PatchesFor(patches, t)
  {
    keys := [];
    groups := map[];
    var i := 0;
    while i < |patches|
      invariant 0 <= i <= |patches|
      invariant keys == Targets(patches[..i])
      invariant forall t :: t in groups <==> t in keys
      invariant forall t :: t in groups ==> groups[t] == PatchesFor(patches[..i], t)
    {
      var p := patches[i];
      var t := p.targetAssemblyPath;
      assert patches[..i + 1] == patches[..i] + [p];
      assert patches[..i + 1][..i] == patches[..i];
      forall u | u in groups {
        PatchesForAppend(patches[..i], p, u);
      }
      if t in groups {
        groups := groups[t := groups[t] + [p]];
      } else {
        PatchesForAppend(patches[..i], p, t);
        PatchesForEmpty(patches[..i], t);
        groups := groups[t := [p]];
        keys := keys + [t];
      }
      i := i + 1;
    }
    assert patches[..i] == patches;
  }

  lemma {:induction false} PatchesForEmpty(patches: seq<Patch>, target: string)
    requires target !in Targets(patches)
    ensures PatchesFor(patches, target) == []
  {
    if PatchesFor(patches, target) != [] {
      TargetOfGroup(patches, target);
      assert false;
    }
  }

  lemma TargetOfGroup(patches: seq<Patch>, target: string)
    requires PatchesFor(patches, target) != []
    ensures target in Targets(patches)
  {
    TargetsMembers(patches);
    PatchesForMembers(patches, target);
    var p := PatchesFor(patches, target)[0];
    assert p in PatchesFor(patches, target);
    var i :| 0 <= i < |patches| && patches[i] == p;
  }

  /** Every patch lands in the group of its own target, and nowhere else. */
  lemma EveryPatchIsGrouped(patches: seq<Patch>, i: nat)
    requires i < |patches|
    ensures patches[i].targetAssemblyPath in Targets(patches)
    ensures patches[i] in PatchesFor(patches, patches[i].targetAssemblyPath)
    ensures forall t :: t != patches[i].targetAssemblyPath ==> patches[i] !in PatchesFor(patches, t)
  {
    TargetsMembers(patches);
    PatchesForMembers(patches, patches[i].targetAssemblyPath);
    forall t | t != patches[i].targetAssemblyPath {
      PatchesForMembers(patches, t);
    }
  }

  // ---- one assembly ------------------------------------------------------

  /** The backup next to a file. */
  function OriginalOf(path: string): string {
    path + ".original"
  }

  /** `patch.Patch(assembly)` for a patch that succeeds: the patch is recorded. */
  function Applied(img: Image, p: Patch): (r: Image)
    ensures r.attributes == img.attributes && r.applied == img.applied + [p.name]
  {
    img.(applied := img.applied + [p.name])
  }

  /** The patches of a group applied in order to `img`; `None` as soon as one
    * reports failure. */
  function PatchAll(img: Image, ps: seq<Patch>, succeeds: (Patch, Image) -> bool): (r: Option<Image>)
    ensures r.Some? ==> r.value.attributes == img.attributes && |r.value.applied| == |img.applied| + |ps|
    decreases |ps|
  {
    if ps == [] then Some(img)
    else if !succeeds(ps[0], img) then None
    else PatchAll(Applied(img, ps[0]), ps[1..], succeeds)
  }

  /** All patches succeed exactly when none of them, met in order, fails; on
    * success every patch name is recorded in order. */
  lemma {:induction false} PatchAllSucceeds(img: Image, ps: seq<Patch>, succeeds: (Patch, Image) -> bool)
    ensures PatchAll(img, ps, succeeds).Some? ==>
      PatchAll(img, ps, succeeds).value.applied == img.applied + seq(|ps|, i requires 0 <= i < |ps| => ps[i].name)
    decreases |ps|
  {
    if ps != [] && succeeds(ps[0], img) {
      PatchAllSucceeds(Applied(img, ps[0]), ps[1..], succeeds);
      var names := seq(|ps|, i requires 0 <= i < |ps| => ps[i].name);
      var rest := seq(|ps[1..]|, i requires 0 <= i < |ps[1..]| => ps[1..][i].name);
      assert names == [ps[0].name] + rest;
    }
  }

  datatype Decision = AlreadyPatched | BackUp | Restore

  /** What a stored version label calls for. */
  function Decide(stored: Option<string>, current: string): (d: Decision)
    ensures d == AlreadyPatched <==> stored == Some(current)
    ensures d == BackUp <==> stored.None?
    ensures d == Restore <==> stored.Some? && stored.value != current
  {
    if stored == Some(current) then AlreadyPatched
    else if stored.None? then BackUp
    else Restore
  }

  // ---- the directory -----------------------------------------------------

  ghost predicate AllSingle(files: map<string, Image>) {
    forall f :: f in files ==> SingleDescription(files[f])
  }

  /** The assembly `path` exists and carries the label of version `current`. */
  ghost predicate Labelled(files: map<string, Image>, path: string, current: string) {
    path in files && GetPatcherVersion(files[path]) == Some(current)
  }

  /** Apart from `path` and its backup, `after` holds the same files as `before`. */
  ghost predicate Untouched(before: map<string, Image>, after: map<string, Image>, path: string) {
    forall f :: f != path && f != OriginalOf(path) ==>
      (f in after <==> f in before) && (f in after ==> after[f] == before[f])
  }

  /** `f` is none of `names` and none of their backups. */
  predicate Spared(f: string, names: seq<string>) {
    forall n :: n in names ==> f != n && f != OriginalOf(n)
  }

  lemma OriginalOfDiffers(path: string)
    ensures OriginalOf(path) != path
  {
    assert |OriginalOf(path)| == |path| + |".original"|;
  }

  /** The first `foreach` of `Process` for one assembly and its patches: the
    * outcome (`Ok(true)` to go on with the next assembly, `Ok(false)` when
    * `Process` returns false) and the directory afterwards. The version is
    * read and written with the accessors as written, so an assembly without
    * a description attribute ends the run with an exception before anything
    * is copied. */
  function PatchOutcome(files: map<string, Image>, path: string, ps: seq<Patch>, current: string,
                        succeeds: (Patch, Image) -> bool): (r: (Result<bool, Fault>, map<string, Image>))
    ensures path !in files ==> r == (Err(AssemblyFileNotFound), files)
    ensures path in files && DescriptionIndex(files[path].attributes).None? ==> r == (Err(NoDescriptionAttribute), files)
    ensures Labelled(files, path, current) ==> r == (Ok(true), files)
    ensures (path in files && GetPatcherVersion(files[path]).Some? && OriginalOf(path) !in files &&
      !Labelled(files, path, current)) ==> r == (Ok(false), files)
    ensures Untouched(files, r.1, path)
  {
    if path !in files then (Err(AssemblyFileNotFound), files)
    else
      var stored := GetPatcherVersionAsWritten(files[path]);
      if stored.Err? then (Err(stored.error), files)
      else
        var decision := Decide(stored.value, current);
        if decision == AlreadyPatched then (Ok(true), files)
        else if decision == Restore && OriginalOf(path) !in files then (Ok(false), files)
        else
          // `File.Copy` to the backup, or back from it
          var copied := if decision == BackUp then files[OriginalOf(path) := files[path]]
            else files[path := files[OriginalOf(path)]];
          var patched := PatchAll(copied[path], ps, succeeds);
          if patched.None? then (Ok(false), copied)
          else
            var labelled := SetPatcherVersionAsWritten(patched.value, current);
            if labelled.Err? then (Err(labelled.error), copied)
            else (Ok(true), copied[path := labelled.value])
  }

  /** The same step with the intended accessors (`FirstOrDefault`). */
  function PatchOutcomeIntended(files: map<string, Image>, path: string, ps: seq<Patch>, current: string,
                                succeeds: (Patch, Image) -> bool): (r: (Result<bool, Fault>, map<string, Image>))
    ensures path !in files ==> r == (Err(AssemblyFileNotFound), files)
    ensures Labelled(files, path, current) ==> r == (Ok(true), files)
    ensures Untouched(files, r.1, path)
  {
    if path !in files then (Err(AssemblyFileNotFound), files)
    else
      var decision := Decide(GetPatcherVersion(files[path]), current);
      if decision == AlreadyPatched then (Ok(true), files)
      else if decision == Restore && OriginalOf(path) !in files then (Ok(false), files)
      else
        var copied := if decision == BackUp then files[OriginalOf(path) := files[path]]
          else files[path := files[OriginalOf(path)]];
        var patched := PatchAll(copied[path], ps, succeeds);
        if patched.None? then (Ok(false), copied)
        else
          var labelled := SetPatcherVersion(patched.value, current);
          if labelled.Err? then (Err(labelled.error), copied)
          else (Ok(true), copied[path := labelled.value])
  }

  /** Where the assembly exists and has a description attribute, the step as
    * written and the intended step agree, except that restoring a backup that
    * has lost its description attribute fails as written. */
  lemma PatchOutcomeAgrees(files: map<string, Image>, path: string, ps: seq<Patch>, current: string,
                           succeeds: (Patch, Image) -> bool)
    requires path in files && DescriptionIndex(files[path].attributes).Some?
    requires OriginalOf(path) in files ==> DescriptionIndex(files[OriginalOf(path)].attributes).Some?
    ensures PatchOutcome(files, path, ps, current, succeeds) == PatchOutcomeIntended(files, path, ps, current, succeeds)
  {
    var decision := Decide(GetPatcherVersion(files[path]), current);
    if decision != AlreadyPatched && (decision == BackUp || OriginalOf(path) in files) {
      var copied := if decision == BackUp then files[OriginalOf(path) := files[path]]
        else files[path := files[OriginalOf(path)]];
      var patched := PatchAll(copied[path], ps, succeeds);
      if patched.Some? {
        SetAgrees(patched.value, current);
      }
    }
  }

  /** An assembly without a description attribute: the step as written throws
    * and leaves the directory alone, while the intended step backs the
    * assembly up, labels it and goes on. */
  lemma NoDescriptionStep()
    ensures var files := map["a.dll" := Image([], [], [])];
      PatchOutcome(files, "a.dll", [], "v", (p, i) => true) == (Err(NoDescriptionAttribute), files)
    ensures var files := map["a.dll" := Image([], [], [])];
      var r := PatchOutcomeIntended(files, "a.dll", [], "v", (p, i) => true);
      r.0 == Ok(true) && OriginalOf("a.dll") in r.1 && GetPatcherVersion(r.1["a.dll"]) == Some("v")
  {
    var files := map["a.dll" := Image([], [], [])];
    VersionRoundTrip(Image([], [], []), "v");
    assert OriginalOf("a.dll") != "a.dll";
  }

  /** With a description attribute present, the writer as written is the intended one. */
  lemma SetAgrees(img: Image, version: string)
    requires DescriptionIndex(img.attributes).Some?
    ensures SetPatcherVersionAsWritten(img, version) == SetPatcherVersion(img, version)
  {
  }

  /** Patching keeps every description single, and a patched assembly comes
    * out labelled with the current version. */
  lemma PatchOutcomeLabels(files: map<string, Image>, path: string, ps: seq<Patch>, current: string,
                           succeeds: (Patch, Image) -> bool)
    requires AllSingle(files)
    ensures AllSingle(PatchOutcome(files, path, ps, current, succeeds).1)
    ensures PatchOutcome(files, path, ps, current, succeeds).0 == Ok(true) ==>
      Labelled(PatchOutcome(files, path, ps, current, succeeds).1, path, current)
  {
    if path in files && DescriptionIndex(files[path].attributes).Some? && !Labelled(files, path, current) {
      var decision := Decide(GetPatcherVersion(files[path]), current);
      assert GetPatcherVersionAsWritten(files[path]) == Ok(GetPatcherVersion(files[path]));
      if decision == BackUp || OriginalOf(path) in files {
        var copied := if decision == BackUp then files[OriginalOf(path) := files[path]]
          else files[path := files[OriginalOf(path)]];
        if decision == BackUp {
          AllSingleUpdate(files, OriginalOf(path), files[path]);
        } else {
          AllSingleUpdate(files, path, files[OriginalOf(path)]);
        }
        var patched := PatchAll(copied[path], ps, succeeds);
        if patched.Some? {
          assert SingleDescription(patched.value);
          if DescriptionIndex(patched.value.attributes).Some? {
            SetAgrees(patched.value, current);
            VersionRoundTrip(patched.value, current);
            var labelled := SetPatcherVersion(patched.value, current).value;
            assert decision != AlreadyPatched;
            assert PatchOutcome(files, path, ps, current, succeeds) == (Ok(true), copied[path := labelled]);
            AllSingleUpdate(copied, path, labelled);
          } else {
            assert PatchOutcome(files, path, ps, current, succeeds) == (Err(NoDescriptionAttribute), copied);
          }
        } else {
          assert PatchOutcome(files, path, ps, current, succeeds) == (Ok(false), copied);
        }
      }
    }
  }

  lemma AllSingleUpdate(files: map<string, Image>, path: string, img: Image)
    requires AllSingle(files) && SingleDescription(img)
    ensures AllSingle(files[path := img])
  {
  }

  /** The first `foreach` of `Process` over the assemblies `keys`, each with
    * the patches aimed at it, stopping at the first outcome other than
    * `Ok(true)`. */
  function PatchEach(files: map<string, Image>, keys: seq<string>, patches: seq<Patch>, current: string,
                     succeeds: (Patch, Image) -> bool): (r: (Result<bool, Fault>, map<string, Image>))
    ensures forall f :: Spared(f, keys) ==> (f in r.1 <==> f in files) && (f in r.1 ==> r.1[f] == files[f])
    ensures keys != [] && keys[0] in files && DescriptionIndex(files[keys[0]].attributes).None? ==>
      r == (Err(NoDescriptionAttribute), files)
    decreases |keys|
  {
    if keys == [] then (Ok(true), files)
    else
      var step := PatchOutcome(files, keys[0], PatchesFor(patches, keys[0]), current, succeeds);
      assert keys[0] in keys && forall n :: n in keys[1..] ==> n in keys;
      if step.0 != Ok(true) then step else PatchEach(step.1, keys[1..], patches, current, succeeds)
  }

  /** An assembly already labelled is skipped; when all are, nothing changes. */
  lemma {:induction false} PatchEachUpToDate(files: map<string, Image>, keys: seq<string>, patches: seq<Patch>,
                                             current: string, succeeds: (Patch, Image) -> bool)
    requires forall k :: k in keys ==> Labelled(files, k, current)
    ensures PatchEach(files, keys, patches, current, succeeds) == (Ok(true), files)
    decreases |keys|
  {
    if keys != [] {
      PatchEachUpToDate(files, keys[1..], patches, current, succeeds);
    }
  }

  /** After a run that goes through, every assembly of `keys` is labelled,
    * provided no assembly is another's backup. */
  lemma {:induction false} PatchEachLabels(files: map<string, Image>, keys: seq<string>, patches: seq<Patch>,
                                           current: string, succeeds: (Patch, Image) -> bool)
    requires AllSingle(files)
    requires forall i, j :: 0 <= i < j < |keys| ==> keys[i] != keys[j]
    requires forall k, l :: k in keys && l in keys ==> k != OriginalOf(l)
    ensures PatchEach(files, keys, patches, current, succeeds).0 == Ok(true) ==>
      forall k :: k in keys ==> Labelled(PatchEach(files, keys, patches, current, succeeds).1, k, current)
    decreases |keys|
  {
    if keys != [] {
      var step := PatchOutcome(files, keys[0], PatchesFor(patches, keys[0]), current, succeeds);
      PatchOutcomeLabels(files, keys[0], PatchesFor(patches, keys[0]), current, succeeds);
      if step.0 == Ok(true) {
        var rest := keys[1..];
        assert forall i, j :: 0 <= i < j < |rest| ==> rest[i] == keys[i + 1] && rest[j] == keys[j + 1];
        assert forall k :: k in rest ==> k in keys;
        PatchEachLabels(step.1, rest, patches, current, succeeds);
        assert Spared(keys[0], rest) by {
          forall n | n in rest
            ensures keys[0] != n && keys[0] != OriginalOf(n)
          {
            var j :| 0 <= j < |rest| && rest[j] == n;
            assert keys[j + 1] == n;
            assert keys[0] in keys && n in keys;
          }
        }
      }
    }
  }

  /** One file of a patch's `RemoveFiles`: a missing file is skipped; an
    * existing one is renamed to its `.original`, replacing an older backup. */
  function Removed(files: map<string, Image>, name: string): (r: map<string, Image>)
    ensures name !in files ==> r == files
    ensures name in files ==> name !in r && OriginalOf(name) in r && r[OriginalOf(name)] == files[name]
    ensures Untouched(files, r, name)
  {
    OriginalOfDiffers(name);
    if name !in files then files else (files - {name})[OriginalOf(name) := files[name]]
  }

  /** The files `names` removed one after the other. */
  function RemoveEach(files: map<string, Image>, names: seq<string>): (r: map<string, Image>)
    ensures (forall n :: n in names ==> n !in files) ==> r == files
    ensures forall f :: Spared(f, names) ==> (f in r <==> f in files) && (f in r ==> r[f] == files[f])
    decreases |names|
  {
    if names == [] then files
    else
      var init := names[..|names| - 1];
      assert forall n :: n in init ==> n in names;
      Removed(RemoveEach(files, init), names[|names| - 1])
  }

  /** The rename of `RemoveAll`'s body, backup written before the file goes. */
  lemma MoveIsRemoved(files: map<string, Image>, name: string, moved: map<string, Image>)
    requires name in files
    requires moved == ((files - {OriginalOf(name)})[OriginalOf(name) := files[name]]) - {name}
    ensures moved == Removed(files, name)
  {
    OriginalOfDiffers(name);
    assert moved.Keys == Removed(files, name).Keys;
  }

  lemma RemoveEachLast(files: map<string, Image>, names: seq<string>, i: nat)
    requires i < |names|
    ensures RemoveEach(files, names[..i + 1]) == Removed(RemoveEach(files, names[..i]), names[i])
  {
    assert names[..i + 1][..i] == names[..i];
  }

  lemma {:induction false} RemoveEachAppend(files: map<string, Image>, a: seq<string>, b: seq<string>)
    ensures RemoveEach(files, a + b) == RemoveEach(RemoveEach(files, a), b)
    decreases |b|
  {
    if b == [] {
      assert a + b == a;
    } else {
      var init := b[..|b| - 1];
      assert (a + b)[..|a + b| - 1] == a + init;
      RemoveEachAppend(files, a, init);
    }
  }

  /** The patches of the groups `keys`, group after group. */
  function Ordered(keys: seq<string>, patches: seq<Patch>): seq<Patch>
    decreases |keys|
  {
    if keys == [] then [] else Ordered(keys[..|keys| - 1], patches) + PatchesFor(patches, keys[|keys| - 1])
  }

  /** The `RemoveFiles` of `ps`, patch after patch. */
  function Retired(ps: seq<Patch>): seq<string>
    decreases |ps|
  {
    if ps == [] then [] else Retired(ps[..|ps| - 1]) + ps[|ps| - 1].removeFiles
  }

  lemma {:induction false} RetiredAppend(a: seq<Patch>, b: seq<Patch>)
    ensures Retired(a + b) == Retired(a) + Retired(b)
    decreases |b|
  {
    if b == [] {
      assert a + b == a;
    } else {
      var init := b[..|b| - 1];
      assert (a + b)[..|a + b| - 1] == a + init;
      assert (a + b)[|a + b| - 1] == b[|b| - 1];
      RetiredAppend(a, init);
    }
  }

  lemma {:induction false} OrderedMembers(keys: seq<string>, patches: seq<Patch>)
    ensures forall p :: p in Ordered(keys, patches) ==> p in patches
    decreases |keys|
  {
    if keys != [] {
      OrderedMembers(keys[..|keys| - 1], patches);
      PatchesForMembers(patches, keys[|keys| - 1]);
    }
  }

  lemma {:induction false} RetiredMembers(ps: seq<Patch>)
    ensures forall n :: n in Retired(ps) ==> exists p :: p in ps && n in p.removeFiles
    decreases |ps|
  {
    if ps != [] {
      var init := ps[..|ps| - 1];
      RetiredMembers(init);
      assert forall p :: p in init ==> p in ps;
      assert ps[|ps| - 1] in ps;
    }
  }

  /** `AssemblyPatcher.Process(targetDirectoryPath)`: the outcome and the
    * directory afterwards. `current` is this patcher's module version id as
    * text. */
  function ProcessOutcome(files: map<string, Image>, patches: seq<Patch>, current: string,
                          succeeds: (Patch, Image) -> bool): (r: (Result<bool, Fault>, map<string, Image>))
    ensures r.0 != Ok(true) ==> r == PatchEach(files, Targets(patches), patches, current, succeeds)
    ensures var keys := Targets(patches);
      keys != [] && keys[0] in files && DescriptionIndex(files[keys[0]].attributes).None? ==>
      r == (Err(NoDescriptionAttribute), files)
  {
    var keys := Targets(patches);
    var first := PatchEach(files, keys, patches, current, succeeds);
    if first.0 != Ok(true) then first
    else (Ok(true), RemoveEach(first.1, Retired(Ordered(keys, patches))))
  }

  /** Every targeted assembly already carries the current label and every
    * file a patch retires is already gone: a second run after a successful
    * one. */
  ghost predicate UpToDate(files: map<string, Image>, patches: seq<Patch>, current: string) {
    (forall p :: p in patches ==> Labelled(files, p.targetAssemblyPath, current)) &&
    (forall p, n :: p in patches && n in p.removeFiles ==> n !in files)
  }

  /** No target assembly is another target's backup, a file a patch retires or
    * that file's backup. */
  ghost predicate Separated(patches: seq<Patch>) {
    forall p, q :: p in patches && q in patches ==>
      p.targetAssemblyPath != OriginalOf(q.targetAssemblyPath) && Spared(p.targetAssemblyPath, q.removeFiles)
  }

  /** Running the patcher again after a successful run succeeds and changes nothing. */
  lemma ProcessIsIdempotent(files: map<string, Image>, patches: seq<Patch>, current: string,
                            succeeds: (Patch, Image) -> bool)
    requires UpToDate(files, patches, current)
    ensures ProcessOutcome(files, patches, current, succeeds) == (Ok(true), files)
  {
    var keys := Targets(patches);
    TargetsMembers(patches);
    PatchEachUpToDate(files, keys, patches, current, succeeds);
    OrderedMembers(keys, patches);
    RetiredMembers(Ordered(keys, patches));
  }

  /** A run that returns true leaves every targeted assembly labelled with
    * the current version. */
  lemma ProcessLabelsEveryTarget(files: map<string, Image>, patches: seq<Patch>, current: string,
                                 succeeds: (Patch, Image) -> bool)
    requires AllSingle(files) && Separated(patches)
    requires ProcessOutcome(files, patches, current, succeeds).0 == Ok(true)
    ensures forall p :: p in patches ==>
      Labelled(ProcessOutcome(files, patches, current, succeeds).1, p.targetAssemblyPath, current)
  {
    var keys := Targets(patches);
    var first := PatchEach(files, keys, patches, current, succeeds);
    var names := Retired(Ordered(keys, patches));
    assert ProcessOutcome(files, patches, current, succeeds) == (Ok(true), RemoveEach(first.1, names));
    TargetsSeparated(patches);
    PatchEachLabels(files, keys, patches, current, succeeds);
    RetiredSpareTargets(patches, keys);
    forall p | p in patches
      ensures Labelled(RemoveEach(first.1, names), p.targetAssemblyPath, current)
    {
      TargetIsKey(patches, p);
      assert Labelled(first.1, p.targetAssemblyPath, current);
    }
  }

  /** The targets are distinct and none is another's backup. */
  lemma TargetsSeparated(patches: seq<Patch>)
    requires Separated(patches)
    ensures forall i, j :: 0 <= i < j < |Targets(patches)| ==> Targets(patches)[i] != Targets(patches)[j]
    ensures forall k, l :: k in Targets(patches) && l in Targets(patches) ==> k != OriginalOf(l)
  {
    TargetsMembers(patches);
    forall k, l | k in Targets(patches) && l in Targets(patches)
      ensures k != OriginalOf(l)
    {
      var i :| 0 <= i < |patches| && patches[i].targetAssemblyPath == k;
      var j :| 0 <= j < |patches| && patches[j].targetAssemblyPath == l;
      assert patches[i] in patches && patches[j] in patches;
    }
  }

  /** A patch's target is one of the groups. */
  lemma TargetIsKey(patches: seq<Patch>, p: Patch)
    requires p in patches
    ensures p.targetAssemblyPath in Targets(patches)
  {
    TargetsMembers(patches);
    var i :| 0 <= i < |patches| && patches[i] == p;
  }

  /** No target is a retired file or a retired file's backup. */
  lemma RetiredSpareTargets(patches: seq<Patch>, keys: seq<string>)
    requires Separated(patches)
    ensures forall p :: p in patches ==> Spared(p.targetAssemblyPath, Retired(Ordered(keys, patches)))
  {
    var names := Retired(Ordered(keys, patches));
    OrderedMembers(keys, patches);
    RetiredMembers(Ordered(keys, patches));
    forall p | p in patches
      ensures Spared(p.targetAssemblyPath, names)
    {
      forall n | n in names
        ensures p.targetAssemblyPath != n && p.targetAssemblyPath != OriginalOf(n)
      {
        var q :| q in Ordered(keys, patches) && n in q.removeFiles;
        assert q in patches;
      }
    }
  }

  /** The target directory's files, which `Process` copies, rewrites and renames. */
  class TargetDirectory {
    var files: map<string, Image>

    constructor (files: map<string, Image>)
      ensures this.files == files
    {
      this.files := files;
    }

    /** One pass of the first `foreach` of `Process`, for the assembly `path`
      * and its patches. */
    method PatchAssembly(path: string, ps: seq<Patch>, current: string, succeeds: (Patch, Image) -> bool)
      returns (r: Result<bool, Fault>)
      modifies this
      ensures (r, files) == PatchOutcome(old(files), path, ps, current, succeeds)
    {
      if path !in files {
        return Err(AssemblyFileNotFound);
      }
      var read := GetPatcherVersionAsWritten(files[path]);
      if read.Err? {
        // `First()` finds no description attribute
        return Err(read.error);
      }
      var stored := read.value;
      if stored == Some(current) {
        return Ok(true);
      }
      if stored.None? {
        files := files[OriginalOf(path) := files[path]];
      } else {
        if OriginalOf(path) !in files {
          // `FileNotFoundException` from the restoring copy
          return Ok(false);
        }
        files := files[path := files[OriginalOf(path)]];
      }
      var patched := RunPatches(files[path], ps, succeeds);
      if patched.None? {
        return Ok(false);
      }
      var labelled := SetPatcherVersionAsWritten(patched.value, current);
      if labelled.Err? {
        return Err(labelled.error);
      }
      // `assembly.Write()`
      files := files[path := labelled.value];
      r := Ok(true);
    }

    /** The inner `foreach`: each patch in turn, giving up at the first that fails. */
    static method RunPatches(img: Image, ps: seq<Patch>, succeeds: (Patch, Image) -> bool) returns (r: Option<Image>)
      ensures r == PatchAll(img, ps, succeeds)
    {
      var cur := img;
      var i := 0;
      while i < |ps|
        invariant 0 <= i <= |ps|
        invariant PatchAll(cur, ps[i..], succeeds) == PatchAll(img, ps, succeeds)
      {
        if !succeeds(ps[i], cur) {
          return None;
        }
        assert ps[i..][1..] == ps[i + 1..];
        cur := Applied(cur, ps[i]);
        i := i + 1;
      }
      r := Some(cur);
    }

    /** The `RemoveFiles` of one patch, in order. */
    method RemoveAll(names: seq<string>)
      modifies this
      ensures files == RemoveEach(old(files), names)
    {
      var i := 0;
      while i < |names|
        invariant 0 <= i <= |names|
        invariant files == RemoveEach(old(files), names[..i])
      {
        var name := names[i];
        ghost var previous := files;
        if name in files {
          var content := files[name];
          files := (files - {OriginalOf(name)})[OriginalOf(name) := content];
          files := files - {name};
          MoveIsRemoved(previous, name, files);
        }
        RemoveEachLast(old(files), names, i);
        i := i + 1;
      }
      assert names[..i] == names;
    }

    /** The `RemoveFiles` of every patch of one group, in order. */
    method RemoveGroup(group: seq<Patch>)
      modifies this
      ensures files == RemoveEach(old(files), Retired(group))
    {
      var j := 0;
      while j < |group|
        invariant 0 <= j <= |group|
        invariant files == RemoveEach(old(files), Retired(group[..j]))
      {
        assert group[..j + 1][..j] == group[..j];
        RemoveEachAppend(old(files), Retired(group[..j]), group[j].removeFiles);
        RemoveAll(group[j].removeFiles);
        j := j + 1;
      }
      assert group[..j] == group;
    }

    /** The first `foreach` of `Process`. */
    method PatchGroups(keys: seq<string>, groups: map<string, seq<Patch>>, patches: seq<Patch>, current: string,
                       succeeds: (Patch, Image) -> bool) returns (r: Result<bool, Fault>)
      requires forall k :: k in keys ==> k in groups && groups[k] == PatchesFor(patches, k)
      modifies this
      ensures (r, files) == PatchEach(old(files), keys, patches, current, succeeds)
    {
      var i := 0;
      while i < |keys|
        invariant 0 <= i <= |keys|
        invariant PatchEach(files, keys[i..], patches, current, succeeds) == PatchEach(old(files), keys, patches, current, succeeds)
      {
        assert keys[i..][0] == keys[i] && keys[i..][1..] == keys[i + 1..];
        var ok := PatchAssembly(keys[i], groups[keys[i]], current, succeeds);
        if ok != Ok(true) {
          return ok;
        }
        i := i + 1;
      }
      r := Ok(true);
    }

    /** The second `foreach` of `Process`. */
    method RemoveGroups(keys: seq<string>, groups: map<string, seq<Patch>>, patches: seq<Patch>)
      requires forall k :: k in keys ==> k in groups && groups[k] == PatchesFor(patches, k)
      modifies this
      ensures files == RemoveEach(old(files), Retired(Ordered(keys, patches)))
    {
      var i := 0;
      while i < |keys|
        invariant 0 <= i <= |keys|
        invariant files == RemoveEach(old(files), Retired(Ordered(keys[..i], patches)))
      {
        var before := Ordered(keys[..i], patches);
        assert keys[..i + 1][..i] == keys[..i];
        assert Ordered(keys[..i + 1], patches) == before + groups[keys[i]];
        RetiredAppend(before, groups[keys[i]]);
        RemoveEachAppend(old(files), Retired(before), Retired(groups[keys[i]]));
        RemoveGroup(groups[keys[i]]);
        i := i + 1;
      }
      assert keys[..i] == keys;
    }

    /** `AssemblyPatcher.Process(targetDirectoryPath)`. */
    method Process(patches: seq<Patch>, current: string, succeeds: (Patch, Image) -> bool)
      returns (r: Result<bool, Fault>)
      modifies this
      ensures (r, files) == ProcessOutcome(old(files), patches, current, succeeds)
    {
      var keys, groups := GroupPatches(patches);
      r := PatchGroups(keys, groups, patches, current, succeeds);
      if r != Ok(true) {
        return;
      }
      RemoveGroups(keys, groups, patches);
    }
  }
}
