/**
 The cascade of plugin settings feature, module, project, install: three hand-written
 searches of it, and the deep merge they are said to agree with.
 */
module ScopeCascade {
  import opened Common
  import opened EffectiveConfig

  /** A value that makes a search go on to the next layer. */
  predicate Unset(v: Json) { Inherits(v) || v == Str("") }

  /** The first layer that sets a key. */
  function PickFirst(layers: seq<Json>, key: string): Json {
    if layers == [] then Undefined
    else if layers[0].Obj? && !Unset(Get(layers[0].fields, key)) then Get(layers[0].fields, key)
    else PickFirst(layers[1..], key)
  }

  predicate AllLayers(layers: seq<Json>) { forall i :: 0 <= i < |layers| ==> IsLayer(layers[i]) }

  // ----- resolve -----

  /** The keys of one layer, outside `todo`, have filled what was open. */
  ghost predicate Filled(out: Fields, before: Fields, layer: Fields, todo: set<string>) {
    forall key :: Get(out, key) ==
      if Get(before, key) == Undefined && key in layer && key !in todo && !Unset(layer[key]) then layer[key]
      else Get(before, key)
  }

  method FillFrom(before: Fields, layer: Fields) returns (out: Fields)
    ensures Filled(out, before, layer, {})
  {
    out := before;
    var todo := layer.Keys;
    while todo != {}
      invariant todo <= layer.Keys && Filled(out, before, layer, todo)
      decreases |todo|
    {
      var key :| key in todo;
      ghost var last := out;
      if Get(out, key) == Undefined && !Unset(layer[key]) {
        out := out[key := layer[key]];
      }
      FillKey(last, before, layer, todo, key, out);
      todo := todo - {key};
    }
  }

  lemma FillKey(out: Fields, before: Fields, layer: Fields, todo: set<string>, key: string, next: Fields)
    requires key in todo && key in layer && Filled(out, before, layer, todo)
    requires next == if Get(out, key) == Undefined && !Unset(layer[key]) then out[key := layer[key]] else out
    ensures Filled(next, before, layer, todo - {key})
  {
    forall k ensures Get(next, k) == if k == key && Get(out, key) == Undefined && !Unset(layer[key]) then layer[key]
                                     else Get(out, k) { }
  }

  /** The most-specific-first fold, key by key the same as a search for each key. */
  method Resolve(layers: seq<Json>) returns (out: Fields)
    requires AllLayers(layers)
    ensures forall key :: Get(out, key) == PickFirst(layers, key)
  {
    hide Filled, Unset;
    out := map[];
    for n := 0 to |layers|
      invariant forall key :: Get(out, key) == PickFirst(layers[..n], key)
    {
      var before := out;
      if layers[n].Obj? {
        out := FillFrom(before, layers[n].fields);
      }
      forall key ensures Get(out, key) == PickFirst(layers[..n + 1], key) {
        NextLayer(out, before, layers, n, key);
      }
    }
    assert layers[..|layers|] == layers;
  }

  lemma NextLayer(out: Fields, before: Fields, layers: seq<Json>, n: nat, key: string)
    requires n < |layers| && Get(before, key) == PickFirst(layers[..n], key)
    requires if layers[n].Obj? then Filled(out, before, layers[n].fields, {}) else out == before
    ensures Get(out, key) == PickFirst(layers[..n + 1], key)
  {
    PickAppend(layers[..n], layers[n], key);
    assert layers[..n + 1] == layers[..n] + [layers[n]];
  }

  lemma {:induction false} PickAppend(layers: seq<Json>, layer: Json, key: string)
    ensures PickFirst(layers + [layer], key)
         == if PickFirst(layers, key) != Undefined then PickFirst(layers, key) else PickFirst([layer], key)
  {
    if layers == [] {
      assert layers + [layer] == [layer];
    } else {
      PickAppend(layers[1..], layer, key);
      assert (layers + [layer])[1..] == layers[1..] + [layer];
    }
  }

  // ----- the searches in the bindings controller -----

  datatype Source = FromFeature | FromModule | FromProject | FromInstall | NoSource

  /** One field of the routing hint, with the layer it comes from. */
  method PickField(feature: Json, moduleLayer: Json, project: Json, install: Json, field: string)
    returns (value: Json, source: Source)
    ensures value == PickFirst([feature, moduleLayer, project, install], field)
    ensures source == NoSource <==> value == Undefined
    ensures source == FromFeature ==> feature.Obj? && value == Get(feature.fields, field)
    ensures source == FromModule ==> moduleLayer.Obj? && value == Get(moduleLayer.fields, field)
    ensures source == FromProject ==> project.Obj? && value == Get(project.fields, field)
    ensures source == FromInstall ==> install.Obj? && value == Get(install.fields, field)
    ensures source == FromModule ==> PickFirst([feature], field) == Undefined
    ensures source == FromProject ==> PickFirst([feature, moduleLayer], field) == Undefined
    ensures source == FromInstall ==> PickFirst([feature, moduleLayer, project], field) == Undefined
  {
    var layers := [(FromFeature, feature), (FromModule, moduleLayer), (FromProject, project), (FromInstall, install)];
    var plain := [feature, moduleLayer, project, install];
    assert plain[..4] == plain && plain[..3] == [feature, moduleLayer, project];
    assert plain[..2] == [feature, moduleLayer] && plain[..1] == [feature];
    for n := 0 to 4
      invariant PickFirst(plain[..n], field) == Undefined
    {
      PickAppend(plain[..n], plain[n], field);
      assert plain[..n + 1] == plain[..n] + [plain[n]];
      assert [plain[n]][1..] == [];
      var v := if layers[n].1.Obj? then Get(layers[n].1.fields, field) else Undefined;
      if !Unset(v) {
        PickPrefix(plain, n + 1, field);
        return v, layers[n].0;
      }
    }
    return Undefined, NoSource;
  }

  lemma {:induction false} PickPrefix(layers: seq<Json>, n: nat, key: string)
    requires n <= |layers| && PickFirst(layers[..n], key) != Undefined
    ensures PickFirst(layers, key) == PickFirst(layers[..n], key)
    decreases |layers| - n
  {
    if n == |layers| {
      assert layers[..n] == layers;
    } else {
      PickAppend(layers[..n], layers[n], key);
      assert layers[..n + 1] == layers[..n] + [layers[n]];
      PickPrefix(layers, n + 1, key);
    }
  }

  /** The lookup of the push-feature endpoint. */
  method PushConfig(moduleLayer: Json, project: Json, install: Json, key: string) returns (value: Json)
    ensures value == PickFirst([moduleLayer, project, install], key)
  {
    var layers := [moduleLayer, project, install];
    for n := 0 to 3
      invariant PickFirst(layers[..n], key) == Undefined
    {
      PickAppend(layers[..n], layers[n], key);
      assert layers[..n + 1] == layers[..n] + [layers[n]];
      assert [layers[n]][1..] == [];
      var v := if layers[n].Obj? then Get(layers[n].fields, key) else Undefined;
      if !Unset(v) {
        PickPrefix(layers, n + 1, key);
        return v;
      }
    }
    assert layers[..3] == layers;
    return Undefined;
  }

  // ----- against the deep merge -----

  function Field(layer: Json, key: string): Json {
    if layer.Obj? then Get(layer.fields, key) else Undefined
  }

  lemma EffectiveField(layers: seq<Json>, key: string)
    requires layers != [] && AllLayers(layers)
    ensures Field(Effective(layers), key) == Over(Field(Effective(layers[1..]), key), Field(layers[0], key))
  {
    EffectiveIsObject(layers[1..]);
    if layers[0].Obj? {
      GetMerged(Effective(layers[1..]).fields, layers[0], key);
    }
  }

  /**
   The most specific entry for the key, which both sides look at first: an empty string is
   skipped by the search and kept by the merge, and an object is merged with what is below.
   */
  predicate SameFor(layers: seq<Json>, key: string) {
    if layers == [] then true
    else if Inherits(Field(layers[0], key)) then SameFor(layers[1..], key)
    else
      && Field(layers[0], key) != Str("")
      && (Field(layers[0], key).Obj? ==> Covers(Field(layers[0], key), Field(Effective(layers[1..]), key)))
  }

  /** The search and the deep merge give one key the same value exactly under that condition. */
  lemma {:induction false} CascadeAgreesExactly(layers: seq<Json>, key: string)
    requires AllLayers(layers)
    ensures PickFirst(layers, key) == Field(Effective(layers), key) <==> SameFor(layers, key)
  {
    hide Covers, Over;
    if layers == [] {
      assert Get(map[], key) == Undefined;
    } else {
      EffectiveField(layers, key);
      var v, below := Field(layers[0], key), Field(Effective(layers[1..]), key);
      OverCases(below, v);
      if Inherits(v) {
        CascadeAgreesExactly(layers[1..], key);
      } else if v == Str("") {
        PickIsSet(layers, key);
      } else {
        HidesWhenCovering(below, v);
      }
    }
  }

  // The same condition on the paths of the layers themselves, leaf by leaf.

  lemma FieldLeaf(v: Json, key: string, path: Path)
    ensures LeafAt(v, [key] + path) == LeafAt(Field(v, key), path)
    ensures IsLayer(v) ==> (Silent(v, [key] + path) <==> Silent(Field(v, key), path))
  {
    assert ([key] + path)[1..] == path;
  }

  /** No layer of the list has the say on a path and holds a leaf there. */
  ghost predicate NoLeafIn(layers: seq<Json>, path: Path) {
    forall j: nat :: Decides(layers, j, path) ==> LeafAt(layers[j], path) == Undefined
  }

  lemma LeafBelow(layers: seq<Json>, path: Path)
    requires path != []
    ensures LeafAt(Effective(layers), path) == Undefined <==> NoLeafIn(layers, path)
  {
    FirstSpeaker(layers, path, 0);
    if i: nat :| Decides(layers, i, path) {
      LeafComesFromDecider(layers, path, i);
      forall j: nat | Decides(layers, j, path) ensures j == i { }
    } else {
      NoLeafWithoutDecider(layers, path);
    }
  }

  /** Layers that do not mention the key have no say on its paths. */
  lemma {:induction false} SkipsSilent(layers: seq<Json>, key: string, path: Path, i: nat)
    requires i < |layers| && AllLayers(layers) && forall j :: 0 <= j < i ==> Inherits(Field(layers[j], key))
    ensures LeafAt(Effective(layers), [key] + path) == LeafAt(Effective(layers[i..]), [key] + path)
    decreases i
  {
    if i == 0 {
      assert layers[0..] == layers;
    } else {
      LeafOfTwo(Effective(layers[1..]), layers[0], [key] + path);
      FieldLeaf(layers[0], key, path);
      SkipsSilent(layers[1..], key, path, i - 1);
      assert layers[1..][i - 1..] == layers[i..];
    }
  }

  /** What the search finds and the merge have the same leaf at a path. */
  ghost predicate SameLeaf(layers: seq<Json>, key: string, path: Path) {
    LeafAt(Field(Effective(layers), key), path) == LeafAt(PickFirst(layers, key), path)
  }

  /** The most specific layer with an entry for the key, an empty string included. */
  ghost predicate FirstEntry(layers: seq<Json>, key: string, i: nat) {
    && i < |layers| && !Inherits(Field(layers[i], key))
    && forall j :: 0 <= j < i ==> Inherits(Field(layers[j], key))
  }

  /** When the first entry is set, the search finds it. */
  lemma {:induction false} PickFirstEntry(layers: seq<Json>, key: string, i: nat)
    requires FirstEntry(layers, key, i)
    ensures !Unset(Field(layers[i], key)) ==> PickFirst(layers, key) == Field(layers[i], key)
    decreases i
  {
    if i > 0 {
      assert Inherits(Field(layers[0], key));
      assert FirstEntry(layers[1..], key, i - 1);
      PickFirstEntry(layers[1..], key, i - 1);
    }
  }

  lemma LeafAgreesExactly(layers: seq<Json>, key: string, i: nat, path: Path)
    requires AllLayers(layers) && FirstEntry(layers, key, i) && Field(layers[i], key) != Str("")
    ensures SameLeaf(layers, key, path)
       <==> (Silent(Field(layers[i], key), path) ==> NoLeafIn(layers[i + 1..], [key] + path))
  {
    hide Silent, LeafAt, NoLeafIn, Effective, PickFirst;
    PickFirstEntry(layers, key, i);
    FieldLeaf(Effective(layers), key, path);
    SkipsSilent(layers, key, path, i);
    TopLeaf(layers, key, i, path);
    if Silent(Field(layers[i], key), path) {
      SilentHasNoLeaf(Field(layers[i], key), path);
      LeafBelow(layers[i + 1..], [key] + path);
    }
  }

  /** The merge keeps an empty string as its first entry; the search never returns one. */
  lemma EmptyStringLeaf(layers: seq<Json>, key: string, i: nat)
    requires AllLayers(layers) && FirstEntry(layers, key, i) && Field(layers[i], key) == Str("")
    ensures !SameLeaf(layers, key, [])
  {
    hide Effective, PickFirst;
    FieldLeaf(Effective(layers), key, []);
    SkipsSilent(layers, key, [], i);
    TopLeaf(layers, key, i, []);
    PickIsSet(layers, key);
  }

  lemma TopLeaf(layers: seq<Json>, key: string, i: nat, path: Path)
    requires i < |layers| && !Inherits(Field(layers[i], key))
    ensures LeafAt(Effective(layers[i..]), [key] + path)
         == if Silent(Field(layers[i], key), path) then LeafAt(Effective(layers[i + 1..]), [key] + path)
            else LeafAt(Field(layers[i], key), path)
  {
    assert layers[i..][1..] == layers[i + 1..];
    LeafOfTwo(Effective(layers[i + 1..]), layers[i], [key] + path);
    FieldLeaf(layers[i], key, path);
  }

  /**
   The first entry, where there is one, is no empty string, and on every path where it is
   silent no less specific layer that has the say there holds a leaf.
   */
  ghost predicate NothingShowsThrough(layers: seq<Json>, key: string) {
    forall i: nat :: FirstEntry(layers, key, i) ==>
      && Field(layers[i], key) != Str("")
      && forall path :: Silent(Field(layers[i], key), path) ==> NoLeafIn(layers[i + 1..], [key] + path)
  }

  /** What the search finds has all leaves of the merge, and no others, exactly under that condition. */
  lemma LeavesAgreeExactly(layers: seq<Json>, key: string)
    requires AllLayers(layers)
    ensures (forall path :: SameLeaf(layers, key, path)) <==> NothingShowsThrough(layers, key)
  {
    hide SameLeaf, Silent, NoLeafIn, FirstEntry;
    if i: nat :| FirstEntry(layers, key, i) {
      assert i < |layers| by { LiesWithin(layers, key, i); }
      forall j: nat | FirstEntry(layers, key, j) ensures j == i { OneFirstEntry(layers, key, i, j); }
      if Field(layers[i], key) == Str("") {
        EmptyStringLeaf(layers, key, i);
      } else {
        forall path
          ensures SameLeaf(layers, key, path)
             <==> (Silent(Field(layers[i], key), path) ==> NoLeafIn(layers[i + 1..], [key] + path))
        {
          LeafAgreesExactly(layers, key, i, path);
        }
      }
    } else {
      forall path ensures SameLeaf(layers, key, path) { NoEntryNoLeaf(layers, key, path); }
    }
  }

  lemma LiesWithin(layers: seq<Json>, key: string, i: nat)
    requires FirstEntry(layers, key, i)
    ensures i < |layers|
  {
  }

  lemma OneFirstEntry(layers: seq<Json>, key: string, i: nat, j: nat)
    requires FirstEntry(layers, key, i) && FirstEntry(layers, key, j)
    ensures i == j
  {
  }

  /** Without an entry neither side finds anything. */
  lemma {:induction false} NoEntryNoLeaf(layers: seq<Json>, key: string, path: Path)
    requires AllLayers(layers) && forall i: nat :: !FirstEntry(layers, key, i)
    ensures SameLeaf(layers, key, path)
  {
    AllInherit(layers, key, |layers|);
    SilentIsSame(layers, key);
    CascadeAgreesExactly(layers, key);
  }

  lemma {:induction false} AllInherit(layers: seq<Json>, key: string, n: nat)
    requires n <= |layers| && forall i: nat :: !FirstEntry(layers, key, i)
    ensures forall j :: 0 <= j < n ==> Inherits(Field(layers[j], key))
  {
    if n > 0 {
      AllInherit(layers, key, n - 1);
      assert !FirstEntry(layers, key, n - 1);
    }
  }

  lemma {:induction false} SilentIsSame(layers: seq<Json>, key: string)
    requires forall j :: 0 <= j < |layers| ==> Inherits(Field(layers[j], key))
    ensures SameFor(layers, key)
  {
    if layers != [] {
      SilentIsSame(layers[1..], key);
    }
  }

  lemma OverCases(base: Json, v: Json)
    ensures Inherits(v) ==> Over(base, v) == base
    ensures !Inherits(v) && !v.Obj? ==> Over(base, v) == v
  {
  }

  lemma {:induction false} PickIsSet(layers: seq<Json>, key: string)
    ensures PickFirst(layers, key) == Undefined || !Unset(PickFirst(layers, key))
  {
    if layers != [] {
      PickIsSet(layers[1..], key);
    }
  }

  /** Flat settings without empty strings: every search equals the deep merge. */
  lemma {:induction false} FlatConfigsAgree(layers: seq<Json>, key: string)
    requires AllLayers(layers)
    requires forall i :: 0 <= i < |layers| ==> !Field(layers[i], key).Obj? && Field(layers[i], key) != Str("")
    ensures PickFirst(layers, key) == Field(Effective(layers), key)
  {
    CascadeAgreesExactly(layers, key);
    FlatIsSame(layers, key);
  }

  lemma {:induction false} FlatIsSame(layers: seq<Json>, key: string)
    requires forall i :: 0 <= i < |layers| ==> !Field(layers[i], key).Obj? && Field(layers[i], key) != Str("")
    ensures SameFor(layers, key)
  {
    if layers != [] {
      FlatIsSame(layers[1..], key);
    }
  }

  /** An empty string over a value: the search goes below it, the merge keeps it. */
  lemma EmptyStringDiffers(value: Json) returns (layers: seq<Json>)
    requires !Unset(value)
    ensures AllLayers(layers) && PickFirst(layers, "k") == value && Field(Effective(layers), "k") == Str("")
  {
    layers := [Obj(map["k" := Str("")]), Obj(map["k" := value])];
    EffectiveField(layers, "k");
    assert layers[1..][0] == layers[1];
  }

  /** Nested settings: the search takes the upper object as it is, the merge fills it from below. */
  lemma NestedObjectDiffers(inner: Json) returns (layers: seq<Json>)
    requires !Inherits(inner)
    ensures AllLayers(layers) && PickFirst(layers, "k") != Field(Effective(layers), "k")
  {
    layers := [Obj(map["k" := Obj(map[])]), Obj(map["k" := Obj(map["x" := inner])])];
    EffectiveField(layers, "k");
    EffectiveField(layers[1..], "k");
    var below := Field(Effective(layers[1..]), "k");
    assert layers[1..][1..] == [] && layers[1..][0] == layers[1];
    assert below == Obj(map["x" := inner]);
    assert "x" in below.fields;
    CascadeAgreesExactly(layers, "k");
  }

  // ----- which scope ids are used -----

  /** An id of a request: absent, or a string that may be empty. */
  type Id = Option<string>

  predicate Given(id: Id) { id.Some? && id.value != "" }

  /** An empty string counts as absent wherever the ids are used. */
  function Effect(id: Id): Id { if Given(id) then id else None }

  datatype FeatureRow = FeatureRow(moduleId: string, projectId: string)

  datatype IssueRow = IssueRow(featureId: Id, moduleId: Id, projectId: string)

  /** The rows the ids refer to; a feature's project is the one of its module. */
  datatype Directory = Directory(
    features: map<string, FeatureRow>, modules: map<string, string>,
    issues: map<string, IssueRow>, defects: map<string, string>)

  predicate Consistent(d: Directory) {
    && (forall f :: f in d.features ==> d.features[f].moduleId != "" && d.features[f].projectId != "")
    && (forall f :: f in d.features ==>
          d.features[f].moduleId in d.modules && d.modules[d.features[f].moduleId] == d.features[f].projectId)
    && (forall m :: m in d.modules ==> d.modules[m] != "")
  }

  datatype Scope = Scope(featureId: Id, moduleId: Id, projectId: Id, issueId: Id, defectId: Id)

  datatype Ids = Ids(featureId: Id, moduleId: Id, projectId: Id)

  function OrElse(id: Id, other: string): Id { if id.None? then Some(other) else id }

  function ProjectOfModule(ids: Ids, d: Directory): Ids {
    if Given(ids.moduleId) && !Given(ids.projectId) && ids.moduleId.value in d.modules
    then ids.(projectId := Some(d.modules[ids.moduleId.value]))
    else ids
  }

  /** The part of the expansion that starts from a feature or module. */
  function FromFeatureOrModule(ids: Ids, d: Directory): Ids {
    var wanted := Given(ids.featureId) && (!Given(ids.moduleId) || !Given(ids.projectId));
    ProjectOfModule(
      if wanted && ids.featureId.value in d.features then
        var f := d.features[ids.featureId.value];
        Ids(ids.featureId, OrElse(ids.moduleId, f.moduleId), OrElse(ids.projectId, f.projectId))
      else ids, d)
  }

  function FromIssue(scope: Scope, d: Directory): Ids {
    var ids := Ids(scope.featureId, scope.moduleId, scope.projectId);
    if Given(scope.issueId) && !Given(ids.featureId) && !Given(ids.moduleId) && !Given(ids.projectId)
       && scope.issueId.value in d.issues
    then
      var issue := d.issues[scope.issueId.value];
      Ids(issue.featureId, issue.moduleId, Some(issue.projectId))
    else ids
  }

  function FromDefect(ids: Ids, defectId: Id, d: Directory): Ids {
    if Given(defectId) && !Given(ids.projectId) && defectId.value in d.defects
    then ids.(projectId := Some(d.defects[defectId.value]))
    else ids
  }

  function Expanded(scope: Scope, d: Directory): Ids {
    FromFeatureOrModule(FromDefect(FromIssue(scope, d), scope.defectId, d), d)
  }

  /** The resolver's expansion, each id assigned in turn. */
  method ExpandScope(scope: Scope, d: Directory) returns (ids: Ids)
    ensures ids == Expanded(scope, d)
  {
    var featureId, moduleId, projectId := scope.featureId, scope.moduleId, scope.projectId;
    if Given(scope.issueId) && !Given(featureId) && !Given(moduleId) && !Given(projectId) {
      if scope.issueId.value in d.issues {
        var issue := d.issues[scope.issueId.value];
        featureId, moduleId, projectId := issue.featureId, issue.moduleId, Some(issue.projectId);
      }
    }
    if Given(scope.defectId) && !Given(projectId) {
      if scope.defectId.value in d.defects {
        projectId := Some(d.defects[scope.defectId.value]);
      }
    }
    if Given(featureId) && (!Given(moduleId) || !Given(projectId)) {
      if featureId.value in d.features {
        var f := d.features[featureId.value];
        moduleId := OrElse(moduleId, f.moduleId);
        projectId := OrElse(projectId, f.projectId);
      }
    }
    if Given(moduleId) && !Given(projectId) {
      if moduleId.value in d.modules {
        projectId := Some(d.modules[moduleId.value]);
      }
    }
    return Ids(featureId, moduleId, projectId);
  }

  function RoutingIds(ids: Ids, d: Directory): Ids {
    ProjectOfModule(
      if Given(ids.featureId) && !Given(ids.moduleId) && ids.featureId.value in d.features then
        var f := d.features[ids.featureId.value];
        Ids(ids.featureId, Some(f.moduleId), OrElse(ids.projectId, f.projectId))
      else ids, d)
  }

  /** The routing hint's expansion of the same ids. */
  method ExpandForRouting(scope: Ids, d: Directory) returns (ids: Ids)
    ensures ids == RoutingIds(scope, d)
  {
    var projectId, moduleId, featureId := scope.projectId, scope.moduleId, scope.featureId;
    if Given(featureId) && !Given(moduleId) {
      if featureId.value in d.features {
        var f := d.features[featureId.value];
        moduleId := Some(f.moduleId);
        projectId := OrElse(projectId, f.projectId);
      }
    }
    if Given(moduleId) && !Given(projectId) {
      if moduleId.value in d.modules {
        projectId := Some(d.modules[moduleId.value]);
      }
    }
    return Ids(featureId, moduleId, projectId);
  }

  /** An existing feature comes with an empty module id, or with a module of another project and no project. */
  predicate Diverges(ids: Ids, d: Directory) {
    && Given(ids.featureId) && ids.featureId.value in d.features
    && (|| ids.moduleId == Some("")
        || (Given(ids.moduleId) && ids.projectId.None?
            && (ids.moduleId.value in d.modules ==>
                  d.modules[ids.moduleId.value] != d.features[ids.featureId.value].projectId)))
  }

  function Effects(ids: Ids): Ids { Ids(Effect(ids.featureId), Effect(ids.moduleId), Effect(ids.projectId)) }

  /** The two expansions lead to the same bindings except in exactly those cases. */
  lemma ExpansionsAgreeExactly(ids: Ids, d: Directory)
    requires Consistent(d)
    ensures Effects(Expanded(Scope(ids.featureId, ids.moduleId, ids.projectId, None, None), d))
              == Effects(RoutingIds(ids, d))
        <==> !Diverges(ids, d)
  {
    var e := FromFeatureOrModule(ids, d);
    var r := RoutingIds(ids, d);
    assert Expanded(Scope(ids.featureId, ids.moduleId, ids.projectId, None, None), d) == e;
    if Diverges(ids, d) {
      var f := d.features[ids.featureId.value];
      if ids.moduleId == Some("") {
        assert Effect(e.moduleId) == None && Effect(r.moduleId) == Some(f.moduleId);
      } else {
        assert e.projectId == Some(f.projectId);
        assert Effect(r.projectId) != Some(f.projectId);
      }
    }
  }

  /** Expanding never changes an id that was given, and expanding again changes nothing. */
  lemma ExpansionSettles(scope: Scope, d: Directory)
    requires Consistent(d)
    ensures var ids := Expanded(scope, d);
      && (Given(scope.featureId) ==> ids.featureId == scope.featureId)
      && (Given(scope.moduleId) ==> ids.moduleId == scope.moduleId)
      && (Given(scope.projectId) ==> ids.projectId == scope.projectId)
      && Effects(Expanded(Scope(ids.featureId, ids.moduleId, ids.projectId, None, None), d)) == Effects(ids)
  {
    var a := FromDefect(FromIssue(scope, d), scope.defectId, d);
    FeatureExpansionSettles(a, d);
  }

  lemma FeatureExpansionSettles(a: Ids, d: Directory)
    requires Consistent(d)
    ensures Effects(FromFeatureOrModule(FromFeatureOrModule(a, d), d)) == Effects(FromFeatureOrModule(a, d))
    ensures Given(a.featureId) ==> FromFeatureOrModule(a, d).featureId == a.featureId
    ensures Given(a.moduleId) ==> FromFeatureOrModule(a, d).moduleId == a.moduleId
    ensures Given(a.projectId) ==> FromFeatureOrModule(a, d).projectId == a.projectId
  {
  }

  /**
   What the expansion finds, for every scope and directory. An issue counts only when no other
   id is given, and then replaces all three; a defect gives the project only; an open module
   and project come from the feature, an open project at last from the module.
   */
  lemma ExpansionMeaning(scope: Scope, d: Directory)
    ensures var e := Expanded(scope, d);
      var issueOnly := !Given(scope.featureId) && !Given(scope.moduleId) && !Given(scope.projectId)
                       && Given(scope.issueId) && scope.issueId.value in d.issues;
      var feature := if issueOnly then d.issues[scope.issueId.value].featureId else scope.featureId;
      var moduleId := if issueOnly then d.issues[scope.issueId.value].moduleId else scope.moduleId;
      var named := if issueOnly then Some(d.issues[scope.issueId.value].projectId) else scope.projectId;
      var project := if !Given(named) && Given(scope.defectId) && scope.defectId.value in d.defects
                     then Some(d.defects[scope.defectId.value]) else named;
      var known := Given(feature) && feature.value in d.features;
      && e.featureId == feature
      && (known && moduleId.None? ==> e.moduleId == Some(d.features[feature.value].moduleId))
      && (!known || moduleId.Some? ==> e.moduleId == moduleId)
      && (Given(project) ==> e.projectId == project)
      && (project.None? && known && d.features[feature.value].projectId != "" ==>
            e.projectId == Some(d.features[feature.value].projectId))
      && (!Given(project) && (!known || project.Some?) && Given(e.moduleId) && e.moduleId.value in d.modules ==>
            e.projectId == Some(d.modules[e.moduleId.value]))
      && (!Given(project) && (!known || project.Some?) && !(Given(e.moduleId) && e.moduleId.value in d.modules) ==>
            e.projectId == project)
  {
  }

  /** A known issue and nothing else: the settings are searched for the issue's own feature, module and project. */
  lemma IssueScopeMeaning(issueId: string, d: Directory, settings: Settings, key: string)
    requires issueId != "" && issueId in d.issues && d.issues[issueId].projectId != ""
    ensures var issue := d.issues[issueId];
      var known := Given(issue.featureId) && issue.featureId.value in d.features;
      var moduleId := if issue.moduleId.None? && known then Some(d.features[issue.featureId.value].moduleId)
                      else issue.moduleId;
      PickFirst(Layers(Expanded(Scope(None, None, None, Some(issueId), None), d), settings), key)
        == PickFirst([OrNull(Bound(settings.features, issue.featureId)), OrNull(Bound(settings.modules, moduleId)),
                      OrNull(Bound(settings.projects, Some(issue.projectId))), settings.install], key)
  {
    var scope := Scope(None, None, None, Some(issueId), None);
    var e := Expanded(scope, d);
    ExpansionMeaning(scope, d);
    hide Expanded;
    MissingIsNull(e, settings, key);
  }

  // ----- the three searches on one scope -----

  /** The bindings of one install that are not deleted, by the id they are bound to, and its own settings. */
  datatype Settings = Settings(
    features: map<string, Json>, modules: map<string, Json>, projects: map<string, Json>, install: Json)

  function Bound(bindings: map<string, Json>, id: Id): Option<Json> {
    if Given(id) && id.value in bindings then Some(bindings[id.value]) else None
  }

  function Pushed(binding: Option<Json>): seq<Json> { if binding.Some? then [binding.value] else [] }

  function OrNull(binding: Option<Json>): Json { if binding.Some? then binding.value else Null }

  /** The layers resolve collects: one for each binding that is there. */
  function Layers(ids: Ids, settings: Settings): seq<Json> {
    Pushed(Bound(settings.features, ids.featureId)) + Pushed(Bound(settings.modules, ids.moduleId))
      + Pushed(Bound(settings.projects, ids.projectId))
      + if Inherits(settings.install) then [] else [settings.install]
  }

  predicate WellFormed(settings: Settings) {
    && (forall id :: id in settings.features ==> IsLayer(settings.features[id]))
    && (forall id :: id in settings.modules ==> IsLayer(settings.modules[id]))
    && (forall id :: id in settings.projects ==> IsLayer(settings.projects[id]))
    && IsLayer(settings.install)
  }

  lemma LayersAreLayers(ids: Ids, settings: Settings)
    requires WellFormed(settings)
    ensures AllLayers(Layers(ids, settings))
  {
    var layers := Layers(ids, settings);
    forall i | 0 <= i < |layers| ensures IsLayer(layers[i]) {
      assert layers[i] == settings.install
        || (exists id :: id in settings.features && layers[i] == settings.features[id])
        || (exists id :: id in settings.modules && layers[i] == settings.modules[id])
        || (exists id :: id in settings.projects && layers[i] == settings.projects[id]);
    }
  }

  method ResolveScope(scope: Scope, d: Directory, settings: Settings) returns (out: Fields)
    requires WellFormed(settings)
    ensures forall key :: Get(out, key) == PickFirst(Layers(Expanded(scope, d), settings), key)
  {
    hide PickFirst, Expanded, AllLayers, WellFormed, IsLayer;
    var ids := ExpandScope(scope, d);
    LayersAreLayers(ids, settings);
    var layers: seq<Json> := [];
    if Given(ids.featureId) && ids.featureId.value in settings.features {
      layers := layers + [settings.features[ids.featureId.value]];
    }
    if Given(ids.moduleId) && ids.moduleId.value in settings.modules {
      layers := layers + [settings.modules[ids.moduleId.value]];
    }
    if Given(ids.projectId) && ids.projectId.value in settings.projects {
      layers := layers + [settings.projects[ids.projectId.value]];
    }
    if !Inherits(settings.install) {
      layers := layers + [settings.install];
    }
    assert layers == Layers(ids, settings);
    out := Resolve(layers);
  }

  /** One field of the routing hint for a scope; nothing without a project binding. */
  method RouteField(scope: Ids, d: Directory, settings: Settings, field: string) returns (value: Json, source: Source)
    ensures value == Routed(RoutingIds(scope, d), settings, field)
    ensures source == NoSource <==> value == Undefined
  {
    hide RoutingIds;
    var ids := ExpandForRouting(scope, d);
    if !Given(ids.projectId) || ids.projectId.value !in settings.projects {
      return Undefined, NoSource;
    }
    value, source := PickField(OrNull(Bound(settings.features, ids.featureId)),
                               OrNull(Bound(settings.modules, ids.moduleId)),
                               settings.projects[ids.projectId.value], settings.install, field);
  }

  function Routed(ids: Ids, settings: Settings, field: string): Json {
    if Bound(settings.projects, ids.projectId).None? then Undefined
    else PickFirst([OrNull(Bound(settings.features, ids.featureId)), OrNull(Bound(settings.modules, ids.moduleId)),
                    OrNull(Bound(settings.projects, ids.projectId)), settings.install], field)
  }

  function PushLayers(f: FeatureRow, settings: Settings): seq<Json> {
    [OrNull(Bound(settings.modules, Some(f.moduleId))), OrNull(Bound(settings.projects, Some(f.projectId))),
     settings.install]
  }

  /** The lookup of the push endpoint for an existing feature; None when it gives up for want of a project binding. */
  method PushField(featureId: string, d: Directory, settings: Settings, key: string) returns (value: Option<Json>)
    requires Consistent(d) && featureId in d.features
    ensures value.None? <==> d.features[featureId].projectId !in settings.projects
    ensures value.Some? ==> value.value == PickFirst(PushLayers(d.features[featureId], settings), key)
  {
    var f := d.features[featureId];
    if f.projectId !in settings.projects {
      return None;
    }
    var v := PushConfig(OrNull(Bound(settings.modules, Some(f.moduleId))), settings.projects[f.projectId],
                        settings.install, key);
    return Some(v);
  }

  lemma {:induction false} PickConcat(a: seq<Json>, b: seq<Json>, key: string)
    ensures PickFirst(a + b, key) == if PickFirst(a, key) != Undefined then PickFirst(a, key) else PickFirst(b, key)
  {
    if a == [] {
      assert a + b == b;
    } else {
      PickConcat(a[1..], b, key);
      assert (a + b)[1..] == a[1..] + b;
      if a[0].Obj? && !Unset(Get(a[0].fields, key)) {
        assert Get(a[0].fields, key) != Undefined;
      }
    }
  }

  lemma PickPushed(binding: Option<Json>, key: string)
    ensures PickFirst(Pushed(binding), key) == PickFirst([OrNull(binding)], key)
  {
    assert [OrNull(binding)][1..] == [];
  }

  /** A missing binding and a null one are the same to the search, in every pattern of the four. */
  lemma MissingIsNull(ids: Ids, settings: Settings, key: string)
    ensures PickFirst(Layers(ids, settings), key)
         == PickFirst([OrNull(Bound(settings.features, ids.featureId)), OrNull(Bound(settings.modules, ids.moduleId)),
                       OrNull(Bound(settings.projects, ids.projectId)), settings.install], key)
  {
    hide PickFirst, Pushed, OrNull, Bound;
    var f, m, p := Bound(settings.features, ids.featureId), Bound(settings.modules, ids.moduleId),
      Bound(settings.projects, ids.projectId);
    var i := if Inherits(settings.install) then [] else [settings.install];
    PickConcat(Pushed(f), Pushed(m), key);
    PickConcat(Pushed(f) + Pushed(m), Pushed(p), key);
    PickConcat(Pushed(f) + Pushed(m) + Pushed(p), i, key);
    PickConcat([OrNull(f)], [OrNull(m)], key);
    PickConcat([OrNull(f), OrNull(m)], [OrNull(p)], key);
    PickConcat([OrNull(f), OrNull(m), OrNull(p)], [settings.install], key);
    PickPushed(f, key);
    PickPushed(m, key);
    PickPushed(p, key);
    PickInstall(settings.install, key);
    assert [OrNull(f)] + [OrNull(m)] == [OrNull(f), OrNull(m)];
    assert [OrNull(f), OrNull(m)] + [OrNull(p)] == [OrNull(f), OrNull(m), OrNull(p)];
    assert [OrNull(f), OrNull(m), OrNull(p)] + [settings.install]
        == [OrNull(f), OrNull(m), OrNull(p), settings.install];
  }

  lemma PickInstall(install: Json, key: string)
    ensures PickFirst(if Inherits(install) then [] else [install], key) == PickFirst([install], key)
  {
    assert [install][1..] == [];
  }

  lemma SameEffects(a: Ids, b: Ids, settings: Settings)
    requires Effects(a) == Effects(b)
    ensures Bound(settings.features, a.featureId) == Bound(settings.features, b.featureId)
    ensures Bound(settings.modules, a.moduleId) == Bound(settings.modules, b.moduleId)
    ensures Bound(settings.projects, a.projectId) == Bound(settings.projects, b.projectId)
  {
    assert Effects(a).featureId == Effects(b).featureId && Effects(a).moduleId == Effects(b).moduleId
        && Effects(a).projectId == Effects(b).projectId;
  }

  /**
   One install, one scope: where the two expansions agree, resolve and the routing hint give
   every key the same value, whichever bindings are there, if and only if there is a project
   binding or no layer sets the key; without one the hint is empty and resolve goes on.
   */
  lemma ResolveAndRoutingAgreeExactly(ids: Ids, d: Directory, settings: Settings, key: string)
    requires Consistent(d) && !Diverges(ids, d)
    ensures var e := Expanded(Scope(ids.featureId, ids.moduleId, ids.projectId, None, None), d);
      var same := PickFirst(Layers(e, settings), key) == Routed(RoutingIds(ids, d), settings, key);
      same <==> (Bound(settings.projects, e.projectId).Some? || NoneSets(Layers(e, settings), key))
  {
    hide PickFirst, Expanded, RoutingIds, Layers, Diverges, Consistent, Effects, Bound, NoneSets;
    var e, q := Expanded(Scope(ids.featureId, ids.moduleId, ids.projectId, None, None), d), RoutingIds(ids, d);
    ExpansionsAgreeExactly(ids, d);
    SameEffects(e, q, settings);
    MissingIsNull(e, settings, key);
    NothingPicked(Layers(e, settings), key);
  }

  predicate NoneSets(layers: seq<Json>, key: string) {
    forall i :: 0 <= i < |layers| ==> Unset(Field(layers[i], key))
  }

  lemma {:induction false} NothingPicked(layers: seq<Json>, key: string)
    ensures PickFirst(layers, key) == Undefined <==> NoneSets(layers, key)
  {
    if layers != [] {
      var rest := layers[1..];
      assert forall i :: 0 <= i < |rest| ==> rest[i] == layers[i + 1];
      NothingPicked(rest, key);
      assert NoneSets(layers, key) <==> Unset(Field(layers[0], key)) && NoneSets(rest, key) by {
        if Unset(Field(layers[0], key)) && NoneSets(rest, key) {
          forall i | 0 <= i < |layers| ensures Unset(Field(layers[i], key)) {
            if i > 0 { assert layers[i] == rest[i - 1]; }
          }
        }
      }
    }
  }

  /** The push endpoint looks where resolve looks for the feature's module. */
  lemma ResolveAndPushAgree(featureId: string, d: Directory, settings: Settings, key: string)
    requires Consistent(d) && featureId in d.features
    ensures var f := d.features[featureId];
      PickFirst(Layers(Expanded(Scope(None, Some(f.moduleId), None, None, None), d), settings), key)
        == PickFirst(PushLayers(f, settings), key)
  {
    var f := d.features[featureId];
    var e := Expanded(Scope(None, Some(f.moduleId), None, None, None), d);
    assert e == Ids(None, Some(f.moduleId), Some(f.projectId));
    hide Expanded;
    MissingIsNull(e, settings, key);
    var rest := [OrNull(Bound(settings.modules, e.moduleId)), OrNull(Bound(settings.projects, e.projectId)),
                 settings.install];
    assert [Null] + rest == [OrNull(Bound(settings.features, e.featureId))] + rest;
    NullFirst(rest, key);
  }

  /**
   For the feature itself it does not: it leaves the feature's own binding out, and finds the
   same value exactly when that binding sets nothing or what the other layers give anyway.
   */
  lemma PushSkipsFeatureExactly(featureId: string, d: Directory, settings: Settings, key: string)
    requires Consistent(d) && featureId in d.features && featureId != ""
    ensures var own := Field(OrNull(Bound(settings.features, Some(featureId))), key);
      var pushed := PickFirst(PushLayers(d.features[featureId], settings), key);
      var resolved := PickFirst(Layers(Expanded(Scope(Some(featureId), None, None, None, None), d), settings), key);
      resolved == pushed <==> (Unset(own) || own == pushed)
  {
    var f := d.features[featureId];
    var e := Expanded(Scope(Some(featureId), None, None, None, None), d);
    assert e == Ids(Some(featureId), Some(f.moduleId), Some(f.projectId));
    hide Expanded;
    MissingIsNull(e, settings, key);
    var rest := PushLayers(f, settings);
    var own := OrNull(Bound(settings.features, e.featureId));
    var all := [own, OrNull(Bound(settings.modules, e.moduleId)), OrNull(Bound(settings.projects, e.projectId)),
                settings.install];
    assert all[1..] == rest;
  }

  lemma NullFirst(rest: seq<Json>, key: string)
    ensures PickFirst([Null] + rest, key) == PickFirst(rest, key)
  {
    assert ([Null] + rest)[1..] == rest;
  }
}
