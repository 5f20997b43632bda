/**
 Binding configuration from a stack of layers, most specific first: objects merge, arrays
 and primitives replace, null and undefined inherit.
 */
module EffectiveConfig {
  /** A configuration value; `Undefined` also stands for a key that is not there. */
  datatype Json =
    | Undefined
    | Null
    | Bool(b: bool)
    | Num(n: real)
    | Str(s: string)
    | Arr(items: seq<Json>)
    | Obj(fields: map<string, Json>)

  type Fields = map<string, Json>

  predicate Inherits(v: Json) { v.Undefined? || v.Null? }

  function Get(fields: Fields, key: string): Json {
    if key in fields then fields[key] else Undefined
  }

  /** A value laid over another one. */
  function Over(base: Json, v: Json): Json
    decreases v, 1
  {
    if Inherits(v) then base
    else if v.Obj? && base.Obj? then Obj(Merged(base.fields, v))
    else v
  }

  function Merged(base: Fields, layer: Json): Fields
    requires layer.Obj?
    decreases layer, 0
  {
    map key | key in base.Keys + layer.fields.Keys && (key in base || !Inherits(layer.fields[key])) ::
      if key in layer.fields then Over(Get(base, key), layer.fields[key]) else base[key]
  }

  function Clone(v: Json): Json {
    match v
    case Arr(items) => Arr(seq(|items|, i requires 0 <= i < |items| => Clone(items[i])))
    case Obj(fields) => Obj(map key | key in fields :: Clone(fields[key]))
    case _ => v
  }

  lemma {:induction false} CloneIsEqual(v: Json)
    ensures Clone(v) == v
  {
    match v
    case Arr(items) =>
      forall i | 0 <= i < |items| ensures Clone(items[i]) == items[i] { CloneIsEqual(items[i]); }
    case Obj(fields) =>
      forall key | key in fields ensures Clone(fields[key]) == fields[key] { CloneIsEqual(fields[key]); }
    case _ =>
  }

  /** The keys of the layer outside `todo` have been merged, the others are as in the base. */
  ghost predicate MergedExcept(out: Fields, base: Fields, layer: Json, todo: set<string>)
    requires layer.Obj?
  {
    forall key ::
      && (key in out <==> key in base || (key in layer.fields && key !in todo && !Inherits(layer.fields[key])))
      && Get(out, key) == if key in layer.fields && key !in todo then Over(Get(base, key), layer.fields[key])
                          else Get(base, key)
  }

  lemma MergeKey(out: Fields, base: Fields, layer: Json, todo: set<string>, key: string, next: Fields)
    requires layer.Obj? && key in todo && key in layer.fields && MergedExcept(out, base, layer, todo)
    requires next == if Inherits(layer.fields[key]) then out else out[key := Over(Get(base, key), layer.fields[key])]
    ensures MergedExcept(next, base, layer, todo - {key})
  {
    hide Merged;
    forall k ensures Get(next, k) == if k == key then Over(Get(base, key), layer.fields[key]) else Get(out, k) {
      assert Get(out, key) == Get(base, key);
    }
  }

  lemma AllMerged(out: Fields, base: Fields, layer: Json)
    requires layer.Obj? && MergedExcept(out, base, layer, {})
    ensures out == Merged(base, layer)
  {
    hide Over;
    forall key ensures key in out <==> key in Merged(base, layer) { }
    forall key | key in out ensures out[key] == Merged(base, layer)[key] {
      assert Get(out, key) == out[key];
    }
  }

  /** One layer over what less specific layers gave. */
  method MergeLayer(base: Fields, layer: Json) returns (out: Fields)
    requires Inherits(layer) || layer.Obj?
    ensures out == if Inherits(layer) then base else Merged(base, layer)
    decreases layer
  {
    hide Merged, MergedExcept, Clone;
    if Inherits(layer) {
      return base;
    }
    out := base;
    var todo := layer.fields.Keys;
    NothingMerged(base, layer);
    while todo != {}
      invariant todo <= layer.fields.Keys && MergedExcept(out, base, layer, todo)
      decreases |todo|
    {
      var key :| key in todo;
      ghost var before := out;
      var ov := layer.fields[key];
      if !Inherits(ov) {
        if ov.Obj? {
          if key in base && base[key].Obj? {
            var merged := MergeLayer(base[key].fields, ov);
            out := out[key := Obj(merged)];
          } else {
            CloneIsEqual(ov);
            out := out[key := Clone(ov)];
          }
        } else {
          out := out[key := ov];
        }
      }
      MergeKey(before, base, layer, todo, key, out);
      todo := todo - {key};
    }
    AllMerged(out, base, layer);
  }

  lemma NothingMerged(base: Fields, layer: Json)
    requires layer.Obj?
    ensures MergedExcept(base, base, layer, layer.fields.Keys)
  {
  }

  /** All layers, the first one most specific. */
  function Effective(layers: seq<Json>): Json {
    if layers == [] then Obj(map[]) else Over(Effective(layers[1..]), layers[0])
  }

  /** A layer is a set of fields, or absent. */
  predicate IsLayer(v: Json) { Inherits(v) || v.Obj? }

  lemma {:induction false} EffectiveIsObject(layers: seq<Json>)
    requires forall i :: 0 <= i < |layers| ==> IsLayer(layers[i])
    ensures Effective(layers).Obj?
  {
    if layers != [] {
      EffectiveIsObject(layers[1..]);
    }
  }

  method EffectiveConfig(layers: seq<Json>) returns (acc: Fields)
    requires forall i :: 0 <= i < |layers| ==> IsLayer(layers[i])
    ensures Obj(acc) == Effective(layers)
  {
    acc := map[];
    var n := |layers|;
    while n > 0
      invariant 0 <= n <= |layers|
      invariant Obj(acc) == Effective(layers[n..])
    {
      n := n - 1;
      assert layers[n..][1..] == layers[n + 1..];
      acc := MergeLayer(acc, layers[n]);
    }
    assert layers[0..] == layers;
  }

  // ----- what a path holds -----

  type Path = seq<string>

  function At(v: Json, path: Path): Json
    decreases path
  {
    if path == [] then v
    else if v.Obj? then At(Get(v.fields, path[0]), path[1..])
    else Undefined
  }

  /** The primitive or array at a path; Undefined when there is none. */
  function LeafAt(v: Json, path: Path): Json {
    if At(v, path).Obj? || Inherits(At(v, path)) then Undefined else At(v, path)
  }

  /** Along the path the value runs into an inherited entry before it holds anything. */
  predicate Silent(v: Json, path: Path)
    decreases path
  {
    || Inherits(v)
    || (v.Obj? && path != [] && Silent(Get(v.fields, path[0]), path[1..]))
  }

  lemma GetMerged(base: Fields, layer: Json, key: string)
    requires layer.Obj?
    ensures Get(Merged(base, layer), key) == Over(Get(base, key), Get(layer.fields, key))
  {
  }

  /** The leaves of two merged values: the upper one decides wherever it is not silent. */
  lemma {:induction false} LeafOfTwo(base: Json, v: Json, path: Path)
    ensures LeafAt(Over(base, v), path) == if Silent(v, path) then LeafAt(base, path) else LeafAt(v, path)
    decreases path
  {
    if path != [] && v.Obj? {
      if base.Obj? {
        GetMerged(base.fields, v, path[0]);
        LeafOfTwo(Get(base.fields, path[0]), Get(v.fields, path[0]), path[1..]);
      } else if Silent(v, path) {
        SilentHasNoLeaf(v, path);
      }
    }
  }

  lemma {:induction false} SilentHasNoLeaf(v: Json, path: Path)
    requires Silent(v, path)
    ensures LeafAt(v, path) == Undefined
    decreases path
  {
    if path != [] && v.Obj? {
      SilentHasNoLeaf(Get(v.fields, path[0]), path[1..]);
    }
  }

  /** The most specific layer that is not silent on a path, if any. */
  ghost predicate Decides(layers: seq<Json>, i: nat, path: Path) {
    i < |layers| && !Silent(layers[i], path) && forall j :: 0 <= j < i ==> Silent(layers[j], path)
  }

  /** Any number of layers: one layer decides each path, and the result has exactly its leaf there. */
  lemma {:induction false} LeafComesFromDecider(layers: seq<Json>, path: Path, i: nat)
    requires path != [] && Decides(layers, i, path)
    ensures LeafAt(Effective(layers), path) == LeafAt(layers[i], path)
  {
    LeafOfTwo(Effective(layers[1..]), layers[0], path);
    if i > 0 {
      assert Decides(layers[1..], i - 1, path);
      LeafComesFromDecider(layers[1..], path, i - 1);
    }
  }

  lemma {:induction false} NoLeafWithoutDecider(layers: seq<Json>, path: Path)
    requires path != [] && forall j :: 0 <= j < |layers| ==> Silent(layers[j], path)
    ensures LeafAt(Effective(layers), path) == Undefined
  {
    if layers != [] {
      LeafOfTwo(Effective(layers[1..]), layers[0], path);
      NoLeafWithoutDecider(layers[1..], path);
    } else {
      assert Get(map[], path[0]) == Undefined;
      assert At(Undefined, path[1..]) == Undefined;
    }
  }

  lemma {:induction false} FirstSpeaker(layers: seq<Json>, path: Path, n: nat)
    requires n <= |layers| && forall j :: 0 <= j < n ==> Silent(layers[j], path)
    ensures (exists i: nat :: Decides(layers, i, path)) || forall j :: 0 <= j < |layers| ==> Silent(layers[j], path)
    decreases |layers| - n
  {
    if n < |layers| {
      if Silent(layers[n], path) {
        FirstSpeaker(layers, path, n + 1);
      } else {
        assert Decides(layers, n, path);
      }
    }
  }

  /**
   A leaf is in the result exactly when it is the leaf of the most specific layer that
   holds anything on the way to its path.
   */
  lemma LeafCharacterised(layers: seq<Json>, path: Path, leaf: Json)
    requires path != [] && !leaf.Obj? && !Inherits(leaf)
    ensures At(Effective(layers), path) == leaf
        <==> exists i: nat :: Decides(layers, i, path) && At(layers[i], path) == leaf
  {
    FirstSpeaker(layers, path, 0);
    if i: nat :| Decides(layers, i, path) {
      LeafComesFromDecider(layers, path, i);
      forall j: nat | Decides(layers, j, path) ensures j == i { }
    } else {
      NoLeafWithoutDecider(layers, path);
    }
  }

  /** A non-silent path in plain words: something is there, or a leaf is in the way. */
  lemma {:induction false} SilentMeaning(v: Json, path: Path)
    ensures Silent(v, path) <==>
      Inherits(At(v, path)) && forall n :: 0 <= n <= |path| ==> LeafAt(v, path[..n]) == Undefined
    decreases path
  {
    if path == [] {
      assert path[..0] == [];
    } else if !v.Obj? {
      assert path[..0] == [];
    } else {
      var below, rest := Get(v.fields, path[0]), path[1..];
      SilentMeaning(below, rest);
      assert path[..0] == [];
      forall n | 0 <= n <= |rest| ensures LeafAt(below, rest[..n]) == LeafAt(v, path[..n + 1]) {
        assert path[..n + 1][0] == path[0] && path[..n + 1][1..] == rest[..n];
      }
      if forall n :: 0 <= n <= |rest| ==> LeafAt(below, rest[..n]) == Undefined {
        forall n | 0 <= n <= |path| ensures LeafAt(v, path[..n]) == Undefined {
          if n > 0 {
            assert LeafAt(below, rest[..n - 1]) == LeafAt(v, path[..n - 1 + 1]);
          }
        }
      }
    }
  }

  // ----- laws -----

  lemma {:induction false} OverItself(v: Json)
    ensures Over(v, v) == v
  {
    if v.Obj? {
      var m := Merged(v.fields, v);
      forall key | key in v.fields ensures m[key] == v.fields[key] {
        OverItself(v.fields[key]);
      }
      assert m == v.fields;
    }
  }

  /** Merging a layer twice is merging it once. */
  lemma {:induction false} OverTwice(base: Json, v: Json)
    ensures Over(Over(base, v), v) == Over(base, v)
    decreases v
  {
    if v.Obj? {
      if base.Obj? {
        var once := Merged(base.fields, v);
        forall key | key in once ensures Get(Merged(once, v), key) == once[key] {
          GetMerged(once, v, key);
          GetMerged(base.fields, v, key);
          if key in v.fields {
            OverTwice(Get(base.fields, key), v.fields[key]);
          }
        }
        assert Merged(once, v).Keys == once.Keys;
        assert Merged(once, v) == once;
      } else {
        OverItself(v);
      }
    }
  }

  function NonNull(layers: seq<Json>): seq<Json> {
    if layers == [] then []
    else (if Inherits(layers[0]) then [] else [layers[0]]) + NonNull(layers[1..])
  }

  /** Absent layers make no difference, wherever they stand. */
  lemma {:induction false} NullLayersAreNoOps(layers: seq<Json>)
    ensures Effective(layers) == Effective(NonNull(layers))
  {
    if layers != [] {
      NullLayersAreNoOps(layers[1..]);
      assert [] + NonNull(layers[1..]) == NonNull(layers[1..]);
      if !Inherits(layers[0]) {
        assert NonNull(layers)[1..] == NonNull(layers[1..]);
      }
    }
  }

  /** Every entry of the base has an entry above it, and no entry is a null that would let the base through. */
  predicate Covers(v: Json, base: Json) {
    if Inherits(v) then v == base
    else if v.Obj? && base.Obj? then
      && (forall key :: key in base.fields ==> key in v.fields)
      && (forall key :: key in v.fields ==>
            if key in base.fields then Covers(v.fields[key], base.fields[key]) else !Inherits(v.fields[key]))
    else true
  }

  /** A value hides the base completely exactly when it covers it. */
  lemma {:induction false} HidesWhenCovering(base: Json, v: Json)
    ensures Over(base, v) == v <==> Covers(v, base)
    decreases v
  {
    if v.Obj? && base.Obj? {
      var m := Merged(base.fields, v);
      forall key | key in v.fields && key in base.fields
        ensures m[key] == v.fields[key] <==> Covers(v.fields[key], base.fields[key])
      {
        HidesWhenCovering(base.fields[key], v.fields[key]);
        assert m[key] == Over(base.fields[key], v.fields[key]);
      }
      if Covers(v, base) {
        assert m.Keys == v.fields.Keys;
        forall key | key in v.fields ensures m[key] == v.fields[key] {
          assert key !in base.fields ==> m[key] == Over(Undefined, v.fields[key]);
        }
        assert m == v.fields;
      }
      if m == v.fields {
        forall key | key in base.fields ensures key in v.fields {
          assert key in m;
        }
        forall key | key in v.fields && key !in base.fields ensures !Inherits(v.fields[key]) {
          assert key in m;
        }
        forall key | key in v.fields && key in base.fields ensures Covers(v.fields[key], base.fields[key]) {
          assert m[key] == v.fields[key];
        }
        assert !Inherits(v);
        assert Covers(v, base);
      }
    }
  }
}
