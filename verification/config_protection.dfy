/** What overlays and the environment can and cannot do to protected configuration. */
module ConfigProtection {
  import opened Text
  import opened ConfigMerge

  // ---- one merge ----

  /** On the way to `keys` both sides hold maps wherever the overlay holds anything; then the
      merge reaches the protected name and skips it. */
  predicate Shielded(base: Value, overlay: Value, path: Path, keys: Path)
    decreases |keys|
  {
    var b, o := OrEmpty(base), OrEmpty(overlay);
    && b.Map? && o.Map?
    && (keys != [] && keys[0] in o.fields && !Protected(path + [keys[0]]) ==>
          && FieldOf(b, keys[0]).Map? && o.fields[keys[0]].Map?
          && Shielded(FieldOf(b, keys[0]), o.fields[keys[0]], path + [keys[0]], keys[1..]))
  }

  lemma DigOneStep(v: Value, keys: Path)
    requires keys != []
    ensures Dig(v, keys) == Dig(FieldOf(v, keys[0]), keys[1..])
  {
    if !(v.Map? && keys[0] in v.fields) {
      NothingInNil(keys[1..]);
    }
  }

  lemma NothingInNil(keys: Path)
    ensures Dig(Nil, keys) == Nil
  {
  }

  lemma NothingInAList(v: Value, keys: Path)
    requires keys != [] && !v.Map?
    ensures Dig(v, keys) == Nil
  {
  }

  lemma MergedAtKey(b: Value, o: Value, path: Path, k: string)
    requires b.Map? && o.Map?
    ensures FieldOf(Merged(b, o, path), k) ==
              if k in o.fields && !Protected(path + [k]) then MergedField(FieldOf(b, k), o.fields[k], path + [k])
              else FieldOf(b, k)
  {
    hide Protected, MergedField;
  }

  lemma MergedFieldCases(existing: Value, value: Value, path: Path)
    ensures value.Map? && existing.Map? ==> MergedField(existing, value, path) == Merged(existing, value, path)
    ensures value.Map? && !existing.Map? ==> MergedField(existing, value, path) == value
    ensures !value.Map? ==> !MergedField(existing, value, path).Map?
    ensures !value.Map? && !value.List? ==> MergedField(existing, value, path) == value
  {
    hide Merged, IdText, MergedUpTo, ById;
  }

  /** Exactly what a merge leaves at a protected path: the base's value when it is shielded, and
      otherwise the overlay's, whatever that is. */
  lemma {:induction false} ProtectedValue(base: Value, overlay: Value, path: Path, keys: Path)
    requires keys != [] && Protected(path + keys) && !Protected(path)
    ensures Dig(Merged(base, overlay, path), keys) ==
            if Shielded(base, overlay, path, keys) then Dig(base, keys) else Dig(overlay, keys)
    decreases |keys|
  {
    hide Protected, MergedField, Merged, Dig;
    var b, o := OrEmpty(base), OrEmpty(overlay);
    var k, rest := keys[0], keys[1..];
    EmptyDigs(base, keys);
    EmptyDigs(overlay, keys);
    if !b.Map? || !o.Map? {
      MergedReplaces(base, overlay, path);
    } else {
      MergedOfEmpty(base, overlay, path);
      DigOneStep(Merged(b, o, path), keys);
      DigOneStep(b, keys);
      DigOneStep(o, keys);
      MergedAtKey(b, o, path, k);
      assert path + [k] + rest == path + keys;
      assert rest == [] ==> path + [k] == path + keys;
      if k in o.fields && !Protected(path + [k]) {
        MergedFieldCases(FieldOf(b, k), o.fields[k], path + [k]);
        if FieldOf(b, k).Map? && o.fields[k].Map? {
          ProtectedValue(FieldOf(b, k), o.fields[k], path + [k], rest);
        } else if !o.fields[k].Map? {
          NothingInAList(o.fields[k], rest);
          NothingInAList(MergedField(FieldOf(b, k), o.fields[k], path + [k]), rest);
        }
      }
    }
  }

  lemma EmptyDigs(v: Value, keys: Path)
    requires keys != []
    ensures Dig(OrEmpty(v), keys) == Dig(v, keys)
  {
  }

  lemma MergedReplaces(base: Value, overlay: Value, path: Path)
    requires !OrEmpty(base).Map? || !OrEmpty(overlay).Map?
    ensures Merged(base, overlay, path) == OrEmpty(overlay)
  {
    hide Protected, MergedField;
  }

  lemma MergedOfEmpty(base: Value, overlay: Value, path: Path)
    ensures Merged(OrEmpty(base), OrEmpty(overlay), path) == Merged(base, overlay, path)
  {
    hide Protected, MergedField;
  }

  // ---- any list of overlays ----

  /** The base has maps at the proper ancestors of the path. */
  predicate MapsAbove(v: Value, keys: Path)
    decreases |keys|
  {
    v.Map? && (|keys| > 1 ==> keys[0] in v.fields && MapsAbove(v.fields[keys[0]], keys[1..]))
  }

  /** The overlay has maps there, or nothing. */
  predicate MapsOrNothing(v: Value, keys: Path)
    decreases |keys|
  {
    v.Map? && (|keys| > 1 && keys[0] in v.fields ==> MapsOrNothing(v.fields[keys[0]], keys[1..]))
  }

  predicate CleanOverlay(v: Value, keys: Path) { MapsOrNothing(OrEmpty(v), keys) }

  lemma {:induction false} CleanKeepsShape(base: Value, overlay: Value, path: Path, keys: Path)
    requires keys != [] && MapsOrNothing(overlay, keys)
    ensures MapsAbove(base, keys) ==> MapsAbove(Merged(base, overlay, path), keys)
    ensures MapsOrNothing(base, keys) ==> MapsOrNothing(Merged(base, overlay, path), keys)
    decreases |keys|
  {
    hide Protected, MergedField, Merged;
    if base.Map? {
      var k := keys[0];
      MergedAtKey(base, overlay, path, k);
      MergedIsMap(base, overlay, path);
      MergedHasKey(base, overlay, path, k);
      if |keys| > 1 && k in overlay.fields {
        assert k in Merged(base, overlay, path).fields ==>
                 Merged(base, overlay, path).fields[k] == FieldOf(Merged(base, overlay, path), k);
        MergedFieldCases(FieldOf(base, k), overlay.fields[k], path + [k]);
        if MapsAbove(base, keys) {
          ShapeIsMap(base.fields[k], keys[1..]);
        }
        if FieldOf(base, k).Map? {
          CleanKeepsShape(FieldOf(base, k), overlay.fields[k], path + [k], keys[1..]);
        }
      }
    }
  }

  lemma MergedIsMap(base: Value, overlay: Value, path: Path)
    requires base.Map? && overlay.Map?
    ensures Merged(base, overlay, path).Map?
  {
    hide Protected, MergedField;
  }

  lemma MergedHasKey(base: Value, overlay: Value, path: Path, k: string)
    requires base.Map? && overlay.Map?
    ensures k in base.fields ==> k in Merged(base, overlay, path).fields
    ensures k in Merged(base, overlay, path).fields ==>
              k in base.fields || (k in overlay.fields && !Protected(path + [k]))
  {
    hide Protected, MergedField;
  }

  lemma {:induction false} CleanIsShielded(base: Value, overlay: Value, path: Path, keys: Path)
    requires keys != [] && Protected(path + keys) && MapsAbove(base, keys) && MapsOrNothing(overlay, keys)
    ensures Shielded(base, overlay, path, keys)
    decreases |keys|
  {
    hide Protected;
    var k := keys[0];
    assert path + [k] + keys[1..] == path + keys;
    assert |keys| == 1 ==> path + [k] == path + keys;
    if k in overlay.fields && !Protected(path + [k]) {
      CleanIsShielded(base.fields[k], overlay.fields[k], path + [k], keys[1..]);
    }
  }

  function MergeAll(base: Value, overlays: seq<Value>): Value {
    if overlays == [] then base else Merged(MergeAll(base, overlays[..|overlays| - 1]), overlays[|overlays| - 1], [])
  }

  lemma NilChangesNothing(base: Value)
    requires base.Map?
    ensures Merged(base, Nil, []) == base
  {
  }

  lemma MergedKeeps(base: Value, overlay: Value, keys: Path)
    requires keys != [] && Protected(keys) && MapsAbove(base, keys) && CleanOverlay(overlay, keys)
    ensures MapsAbove(Merged(base, overlay, []), keys)
    ensures Dig(Merged(base, overlay, []), keys) == Dig(base, keys)
  {
    hide Protected, Merged, Dig;
    if overlay.Nil? {
      NilChangesNothing(base);
    } else {
      assert [] + keys == keys;
      NothingAtTop();
      CleanKeepsShape(base, overlay, [], keys);
      CleanIsShielded(base, overlay, [], keys);
      ProtectedValue(base, overlay, [], keys);
    }
  }

  lemma NothingAtTop()
    ensures !Protected([])
  {
  }

  /** However many overlays are merged, a protected value is the base's. */
  lemma {:induction false} OverlaysKeepProtected(base: Value, overlays: seq<Value>, keys: Path)
    requires keys != [] && Protected(keys) && MapsAbove(base, keys)
             && forall o :: o in overlays ==> CleanOverlay(o, keys)
    ensures MapsAbove(MergeAll(base, overlays), keys)
    ensures Dig(MergeAll(base, overlays), keys) == Dig(base, keys)
  {
    hide Protected, Merged, Dig, MapsAbove, CleanOverlay;
    if overlays != [] {
      OverlaysKeepProtected(base, overlays[..|overlays| - 1], keys);
      MergedKeeps(MergeAll(base, overlays[..|overlays| - 1]), overlays[|overlays| - 1], keys);
    }
  }

  // ---- environment overrides ----

  /** Sets a leaf, putting a map in place of anything else on the way to it. */
  function SetNested(v: Value, keys: Path, leaf: Value): Value
    requires v.Map? && keys != []
    decreases |keys|
  {
    if |keys| == 1 then Map(v.fields[keys[0] := leaf])
    else
      var inner := if FieldOf(v, keys[0]).Map? then v.fields[keys[0]] else Map(map[]);
      Map(v.fields[keys[0] := SetNested(inner, keys[1..], leaf)])
  }

  datatype Override = Override(path: Path, value: Value)

  const ENV_PATHS: seq<Path> := [
    ["dependency_guard", "enabled"], ["context_provider", "enabled"], ["loop_guard", "max_iterations"],
    ["context_provider", "project_paths", "primary"], ["context_provider", "project_paths", "fallback"],
    ["external_repos", "ai_skills_path"], ["external_repos", "knowledge_base_path"],
    ["knowledge", "mode"], ["reviewer", "evidence_policy", "mode"]
  ]

  function Overridden(v: Value, overrides: seq<Override>): Value
    requires v.Map? && forall x :: x in overrides ==> x.path in ENV_PATHS
    ensures Overridden(v, overrides).Map?
  {
    if overrides == [] then v
    else SetNested(Overridden(v, overrides[..|overrides| - 1]), overrides[|overrides| - 1].path,
                   overrides[|overrides| - 1].value)
  }

  lemma EnvPathsAreElsewhere(path: Path, keys: Path)
    requires path in ENV_PATHS && Protected(keys)
    ensures path != [] && keys != [] && path[0] != keys[0]
  {
    var i :| 0 <= i < |PROTECTED_PATHS| && PROTECTED_PATHS[i] <= keys;
    assert PROTECTED_PATHS[i][0] == keys[0];
  }

  lemma SetElsewhere(v: Value, path: Path, leaf: Value, keys: Path)
    requires v.Map? && path != [] && keys != [] && path[0] != keys[0]
    ensures Dig(SetNested(v, path, leaf), keys) == Dig(v, keys)
  {
    hide Dig;
    DigOneStep(v, keys);
    DigOneStep(SetNested(v, path, leaf), keys);
  }

  lemma {:induction false} EnvironmentKeepsProtected(v: Value, overrides: seq<Override>, keys: Path)
    requires v.Map? && Protected(keys) && forall x :: x in overrides ==> x.path in ENV_PATHS
    ensures Dig(Overridden(v, overrides), keys) == Dig(v, keys)
  {
    hide Protected, Dig, ENV_PATHS, SetNested;
    if overrides != [] {
      var rest, last := overrides[..|overrides| - 1], overrides[|overrides| - 1];
      EnvironmentKeepsProtected(v, rest, keys);
      EnvPathsAreElsewhere(last.path, keys);
      SetElsewhere(Overridden(v, rest), last.path, last.value, keys);
    }
  }

  // ---- the configuration as it is built ----

  /** base, then the profile with its local file merged onto it, then the local overlay. */
  function BuiltConfig(base: Value, profile: Option<(Value, Value)>, local: Value): Value {
    var profiled := if profile.Some? then Merged(base, Merged(profile.value.0, profile.value.1, []), []) else base;
    Merged(profiled, local, [])
  }

  lemma CleanProfile(profile: Value, local: Value, keys: Path)
    requires keys != [] && CleanOverlay(profile, keys) && CleanOverlay(local, keys)
    ensures CleanOverlay(Merged(profile, local, []), keys)
  {
    hide Merged;
    MergedOfEmpty(profile, local, []);
    CleanKeepsShape(OrEmpty(profile), OrEmpty(local), [], keys);
  }

  lemma ShapeIsMap(v: Value, keys: Path)
    requires MapsAbove(v, keys)
    ensures v.Map?
  {
  }

  /** The promise of the protected list: profiles, local files and the environment leave every
      protected value as the tracked file has it, given maps above it. */
  lemma ProtectedConfigIsTheBases(base: Value, profile: Option<(Value, Value)>, local: Value, overrides: seq<Override>,
                                  keys: Path)
    requires Protected(keys) && keys != [] && MapsAbove(base, keys)
    requires profile.Some? ==> CleanOverlay(profile.value.0, keys) && CleanOverlay(profile.value.1, keys)
    requires CleanOverlay(local, keys)
    requires forall x :: x in overrides ==> x.path in ENV_PATHS
    ensures BuiltConfig(base, profile, local).Map?
    ensures Dig(Overridden(BuiltConfig(base, profile, local), overrides), keys) == Dig(base, keys)
  {
    hide Protected, Merged, Dig, MapsAbove, CleanOverlay, ENV_PATHS, Overridden;
    var profiled := base;
    if profile.Some? {
      CleanProfile(profile.value.0, profile.value.1, keys);
      MergedKeeps(base, Merged(profile.value.0, profile.value.1, []), keys);
      profiled := Merged(base, Merged(profile.value.0, profile.value.1, []), []);
    }
    MergedKeeps(profiled, local, keys);
    ShapeIsMap(Merged(profiled, local, []), keys);
    EnvironmentKeepsProtected(Merged(profiled, local, []), overrides, keys);
  }

  /** Without maps above it the promise fails: an overlay that sets `preflight` to null drops the
      protected list of trusted sources. */
  lemma NullAboveWipesProtected() returns (base: Value, overlay: Value, keys: Path)
    ensures Protected(keys) && MapsAbove(base, keys)
    ensures Dig(base, keys) == Scalar("internal") && Dig(Merged(base, overlay, []), keys) == Nil
  {
    hide Merged;
    keys := ["preflight", "trusted_sources"];
    base := Map(map["preflight" := Map(map["trusted_sources" := Scalar("internal")])]);
    overlay := Map(map["preflight" := Nil]);
    assert PROTECTED_PATHS[5] <= keys;
    assert keys[1..] == ["trusted_sources"] && keys[1..][1..] == [];
    NothingAtTop();
    assert [] + keys == keys;
    PreflightIsOpen();
    ProtectedValue(base, overlay, [], keys);
  }

  lemma PreflightIsOpen()
    ensures !Protected([] + ["preflight"])
  {
    assert [] + ["preflight"] == ["preflight"];
    forall i | 0 <= i < |PROTECTED_PATHS| ensures |PROTECTED_PATHS[i]| > 1 || PROTECTED_PATHS[i][0] != "preflight" {
    }
  }
}
