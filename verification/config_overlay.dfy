/** What the merged configuration holds where nothing is protected: a layer that names a path decides it,
    and one that does not leaves it alone (scripts/resolve-office-config.rb). */
module ConfigOverlay {
  import opened Text
  import opened ConfigMerge
  import opened ConfigProtection
  import opened ConfigLists

  /** There is a key at the path, whatever it holds. */
  predicate Has(v: Value, keys: Path)
    decreases |keys|
  {
    keys == [] || (v.Map? && keys[0] in v.fields && Has(v.fields[keys[0]], keys[1..]))
  }

  lemma HasNothing(v: Value, keys: Path)
    ensures !Has(v, keys) ==> Dig(v, keys) == Nil
    decreases |keys|
  {
    if keys != [] && v.Map? && keys[0] in v.fields {
      HasNothing(v.fields[keys[0]], keys[1..]);
    }
  }

  lemma HasOneStep(v: Value, keys: Path)
    requires keys != []
    ensures Has(v, keys) <==> v.Map? && keys[0] in v.fields && Has(v.fields[keys[0]], keys[1..])
    ensures Has(v, keys) ==> Dig(v, keys) == Dig(v.fields[keys[0]], keys[1..])
  {
  }

  /** No overlay protects what lies above an open path. */
  lemma OpenAbove(path: Path, keys: Path, k: string)
    requires !Protected(path + keys) && keys != [] && keys[0] == k
    ensures !Protected(path + [k])
  {
    hide Protected;
    assert path + keys == (path + [k]) + keys[1..];
    ProtectedBelow(path + [k], keys[1..]);
  }

  lemma ProtectedBelow(path: Path, more: Path)
    ensures Protected(path) ==> Protected(path + more)
  {
    if i :| 0 <= i < |PROTECTED_PATHS| && PROTECTED_PATHS[i] <= path {
      assert PROTECTED_PATHS[i] <= path + more;
    }
  }

  /** Two values that merge into one: both maps, or both lists whose entries carry ids. */
  predicate Mergeable(b: Value, o: Value) { (b.Map? && o.Map?) || (IdKeyed(b) && IdKeyed(o)) }

  // ---- one overlay ----

  /** Where the overlay names no key, maps or nothing above it, the base's value stays. */
  lemma {:induction false} UnnamedIsTheBases(base: Value, overlay: Value, path: Path, keys: Path)
    requires base.Map? && keys != [] && MapsOrNothing(overlay, keys) && !Has(overlay, keys)
    ensures Dig(Merged(base, overlay, path), keys) == Dig(base, keys)
    ensures Has(Merged(base, overlay, path), keys) == Has(base, keys)
    decreases |keys|
  {
    hide Protected, MergedField, Merged, Dig, Has;
    var k, rest := keys[0], keys[1..];
    var m := Merged(base, overlay, path);
    MergedAtKey(base, overlay, path, k);
    MergedIsMap(base, overlay, path);
    MergedHasKey(base, overlay, path, k);
    FieldIsThere(m, k);
    FieldIsThere(base, k);
    HasOneStep(m, keys);
    HasOneStep(base, keys);
    HasOneStep(overlay, keys);
    DigOneStep(m, keys);
    DigOneStep(base, keys);
    if k in overlay.fields && !Protected(path + [k]) {
      MergedFieldCases(FieldOf(base, k), overlay.fields[k], path + [k]);
      if rest == [] {
        HasAll(overlay.fields[k]);
        assert false;
      } else if FieldOf(base, k).Map? {
        UnnamedIsTheBases(FieldOf(base, k), overlay.fields[k], path + [k], rest);
      } else {
        HasNothing(overlay.fields[k], rest);
        NothingInAList(FieldOf(base, k), rest);
        NotInALeaf(FieldOf(base, k), rest);
      }
    }
  }

  lemma HasAll(v: Value)
    ensures Has(v, [])
  {
  }

  lemma FieldIsThere(v: Value, k: string)
    requires v.Map?
    ensures k in v.fields ==> FieldOf(v, k) == v.fields[k]
    ensures k !in v.fields ==> FieldOf(v, k) == Nil
  {
  }

  lemma NotInALeaf(v: Value, keys: Path)
    requires keys != [] && !v.Map?
    ensures !Has(v, keys)
  {
  }

  /** Where an overlay names an open path, the result is there, and it is the overlay's value, unless
      both sides hold something to merge. A list without ids, a scalar and a null replace. */
  lemma {:induction false} NamedIsTheOverlays(base: Value, overlay: Value, path: Path, keys: Path)
    requires base.Map? && overlay.Map? && keys != [] && Has(overlay, keys) && !Protected(path + keys)
    ensures Has(Merged(base, overlay, path), keys)
    ensures !Mergeable(Dig(base, keys), Dig(overlay, keys)) ==>
              Dig(Merged(base, overlay, path), keys) == Dig(overlay, keys)
    decreases |keys|
  {
    hide Protected, MergedField, Merged, Dig, Has, Mergeable, IdKeyed;
    var k, rest := keys[0], keys[1..];
    var m := Merged(base, overlay, path);
    OpenAbove(path, keys, k);
    MergedAtKey(base, overlay, path, k);
    MergedIsMap(base, overlay, path);
    HasOneStep(overlay, keys);
    MergedHoldsKey(base, overlay, path, k);
    FieldIsThere(m, k);
    HasOneStep(m, keys);
    DigOneStep(base, keys);
    var b, o := FieldOf(base, k), overlay.fields[k];
    if rest == [] {
      HasAll(m.fields[k]);
      DigHere(b);
      DigHere(o);
      DigHere(m.fields[k]);
      NotMergeable(b, o, path + [k]);
    } else {
      NotInALeafUnless(o, rest);
      MergedFieldCases(b, o, path + [k]);
      assert path + [k] + rest == path + keys;
      if b.Map? {
        NamedIsTheOverlays(b, o, path + [k], rest);
      }
    }
  }

  lemma DigHere(v: Value)
    ensures Dig(v, []) == v
  {
  }

  lemma NotInALeafUnless(v: Value, keys: Path)
    requires keys != [] && Has(v, keys)
    ensures v.Map?
  {
  }

  lemma MergedHoldsKey(base: Value, overlay: Value, path: Path, k: string)
    requires base.Map? && overlay.Map? && k in overlay.fields && !Protected(path + [k])
    ensures Merged(base, overlay, path).Map? && k in Merged(base, overlay, path).fields
  {
    hide Protected, MergedField;
  }

  lemma NotMergeable(b: Value, o: Value, path: Path)
    ensures !Mergeable(b, o) ==> MergedField(b, o, path) == o
  {
    hide Merged, IdText, MergedUpTo, ById;
  }

  /** Where both sides hold maps, they are merged in turn. */
  lemma {:induction false} MapsAreMerged(base: Value, overlay: Value, path: Path, keys: Path)
    requires base.Map? && overlay.Map? && keys != [] && !Protected(path + keys)
    requires Dig(base, keys).Map? && Dig(overlay, keys).Map?
    ensures Dig(Merged(base, overlay, path), keys) == Merged(Dig(base, keys), Dig(overlay, keys), path + keys)
    decreases |keys|
  {
    hide Protected, MergedField, Merged, Dig;
    var k, rest := keys[0], keys[1..];
    OpenAbove(path, keys, k);
    MergedAtKey(base, overlay, path, k);
    MergedIsMap(base, overlay, path);
    DigOneStep(Merged(base, overlay, path), keys);
    DigOneStep(base, keys);
    DigOneStep(overlay, keys);
    var b, o := FieldOf(base, k), FieldOf(overlay, k);
    assert path + [k] + rest == path + keys;
    MapInMap(b, rest);
    MapInMap(o, rest);
    MergedFieldCases(b, o, path + [k]);
    if rest == [] {
      assert path + keys == path + [k];
      DigHere(b);
      DigHere(o);
      DigHere(MergedField(b, o, path + [k]));
    } else {
      MapsAreMerged(b, o, path + [k], rest);
    }
  }

  lemma MapInMap(v: Value, keys: Path)
    requires Dig(v, keys).Map?
    ensures v.Map?
  {
  }

  // ---- one entry of a list merged by id ----

  function EntryAt(t: seq<Slot>, id: string): Option<Value> {
    if Position(t, id) < |t| then Some(t[Position(t, id)].entry) else None
  }

  lemma {:induction false} PositionIs(t: seq<Slot>, id: string, i: nat)
    requires i <= |t| && (i < |t| ==> t[i].id == id) && forall k :: 0 <= k < i ==> t[k].id != id
    ensures Position(t, id) == i
  {
  }

  lemma PutEntry(t: seq<Slot>, id: string, v: Value, other: string)
    ensures EntryAt(Put(t, id, v), other) == if other == id then Some(v) else EntryAt(t, other)
  {
    hide Position;
    var i, j := Position(t, id), Position(t, other);
    if i < |t| || j < |t| || other == id {
      PositionIs(Put(t, id, v), other, j);
    } else {
      PositionIs(Put(t, id, v), other, |t| + 1);
    }
  }

  /** The overlay entry `j` is the only one of its id among the first `n`. */
  predicate Once(overlay: Value, n: nat, j: nat)
    requires IdKeyed(overlay) && j < n <= |overlay.items|
  {
    forall k :: 0 <= k < n && k != j ==> IdText(overlay.items[k]) != IdText(overlay.items[j])
  }

  /** What one overlay entry makes of the entry of its id: merged in turn, or added as it is. */
  function EntryWith(was: Option<Value>, e: Value, path: Path): Value {
    if was.Some? then WithId(Merged(was.value, e, path + [IdText(e)]), IdText(e)) else e
  }

  lemma {:induction false} MergedEntryIs(t: seq<Slot>, overlay: Value, n: nat, path: Path, id: string)
    requires IdKeyed(overlay) && n <= |overlay.items|
    ensures (forall k :: 0 <= k < n ==> IdText(overlay.items[k]) != id) ==>
              EntryAt(MergedUpTo(t, overlay, n, path), id) == EntryAt(t, id)
    ensures forall j :: 0 <= j < n && IdText(overlay.items[j]) == id && Once(overlay, n, j) ==>
              EntryAt(MergedUpTo(t, overlay, n, path), id) == Some(EntryWith(EntryAt(t, id), overlay.items[j], path))
    decreases n
  {
    hide IdText, Put, WithId, Merged, MergedUpTo, Position, EntryWith;
    if n == 0 {
      NothingMerged(t, overlay, path);
    } else {
      MergedEntryIs(t, overlay, n - 1, path, id);
      OneMoreEntry(t, overlay, n, path, id);
      forall j | 0 <= j < n && IdText(overlay.items[j]) == id && Once(overlay, n, j)
        ensures EntryAt(MergedUpTo(t, overlay, n, path), id) == Some(EntryWith(EntryAt(t, id), overlay.items[j], path))
      {
        if j < n - 1 {
          assert Once(overlay, n - 1, j);
        }
      }
    }
  }

  lemma OneMoreEntry(t: seq<Slot>, overlay: Value, n: nat, path: Path, id: string)
    requires IdKeyed(overlay) && 0 < n <= |overlay.items|
    ensures var was, e := MergedUpTo(t, overlay, n - 1, path), overlay.items[n - 1];
            EntryAt(MergedUpTo(t, overlay, n, path), id) ==
              if id == IdText(e) then Some(EntryWith(EntryAt(was, id), e, path)) else EntryAt(was, id)
  {
    hide IdText, Put, WithId, Merged, MergedUpTo;
    var was, e := MergedUpTo(t, overlay, n - 1, path), overlay.items[n - 1];
    OneMore(t, overlay, n, path);
    PutEntry(was, IdText(e), EntryWith(EntryAt(was, IdText(e)), e, path), id);
  }

  /** Each entry of a list merged by id: the base's where the overlay does not name its id, the overlay's
      where the base does not, and otherwise the merge of the two. */
  lemma MergedListEntry(base: Value, overlay: Value, path: Path, j: nat)
    requires IdKeyed(base) && IdKeyed(overlay) && j < |overlay.items| && Once(overlay, |overlay.items|, j)
    ensures var t, e := ById(base.items), overlay.items[j];
            EntryAt(MergedUpTo(t, overlay, |overlay.items|, path), IdText(e)) ==
              Some(if EntryAt(t, IdText(e)).Some?
                   then WithId(Merged(EntryAt(t, IdText(e)).value, e, path + [IdText(e)]), IdText(e)) else e)
  {
    hide IdText, Put, WithId, Merged, MergedUpTo, Position, ById;
    MergedEntryIs(ById(base.items), overlay, |overlay.items|, path, IdText(overlay.items[j]));
  }

  // ---- all layers ----

  /** A value that replaces rather than merges. */
  predicate Plain(v: Value) { !v.Map? && !IdKeyed(v) }

  /** A layer that may name the path: maps or nothing above it, and at it something that replaces. */
  predicate Layer(v: Value, keys: Path) { CleanOverlay(v, keys) && (Has(v, keys) ==> Plain(Dig(v, keys))) }

  /** One layer on top. */
  lemma LayerDecides(base: Value, overlay: Value, keys: Path)
    requires OrEmpty(base).Map? && keys != [] && !Protected(keys) && Layer(overlay, keys)
    ensures var m := Merged(base, overlay, []);
            && m.Map?
            && Dig(m, keys) == (if Has(overlay, keys) then Dig(overlay, keys) else Dig(base, keys))
            && (Has(m, keys) <==> Has(base, keys) || Has(overlay, keys))
  {
    hide Protected, Merged, Dig, Has, IdKeyed;
    var b, o := OrEmpty(base), OrEmpty(overlay);
    MergedOfEmpty(base, overlay, []);
    MapsOrNothingIsMap(o, keys);
    MergedIsMap(b, o, []);
    EmptyDigs(base, keys);
    EmptyDigs(overlay, keys);
    EmptyHas(base, keys);
    EmptyHas(overlay, keys);
    assert [] + keys == keys;
    if Has(o, keys) {
      NamedIsTheOverlays(b, o, [], keys);
    } else {
      UnnamedIsTheBases(b, o, [], keys);
    }
  }

  lemma MapsOrNothingIsMap(v: Value, keys: Path)
    requires MapsOrNothing(v, keys)
    ensures v.Map?
  {
  }

  lemma EmptyHas(v: Value, keys: Path)
    requires keys != []
    ensures Has(OrEmpty(v), keys) == Has(v, keys)
  {
  }

  /** Two layers make one. */
  lemma LayersMerge(a: Value, b: Value, keys: Path)
    requires keys != [] && !Protected(keys) && Layer(a, keys) && Layer(b, keys)
    ensures Layer(Merged(a, b, []), keys)
  {
    hide Protected, Merged, Dig, Has, IdKeyed, CleanOverlay;
    CleanProfile(a, b, keys);
    CleanIsMap(a, keys);
    LayerDecides(a, b, keys);
  }

  lemma CleanIsMap(v: Value, keys: Path)
    requires CleanOverlay(v, keys)
    ensures OrEmpty(v).Map?
  {
  }

  /** The last layer that names an open path decides it: the local file, else the profile's local file,
      else the profile, else the tracked file. */
  lemma LastLayerWins(base: Value, profile: Option<(Value, Value)>, local: Value, keys: Path)
    requires base.Map? && keys != [] && !Protected(keys) && Layer(local, keys)
    requires profile.Some? ==> Layer(profile.value.0, keys) && Layer(profile.value.1, keys)
    ensures BuiltConfig(base, profile, local).Map?
    ensures Dig(BuiltConfig(base, profile, local), keys) ==
            if Has(local, keys) then Dig(local, keys)
            else if profile.Some? && Has(profile.value.1, keys) then Dig(profile.value.1, keys)
            else if profile.Some? && Has(profile.value.0, keys) then Dig(profile.value.0, keys)
            else Dig(base, keys)
  {
    hide Protected, Merged, Dig, Has, Layer;
    var profiled := base;
    if profile.Some? {
      LayerIsMap(profile.value.0, keys);
      LayersMerge(profile.value.0, profile.value.1, keys);
      LayerDecides(profile.value.0, profile.value.1, keys);
      LayerDecides(base, Merged(profile.value.0, profile.value.1, []), keys);
      profiled := Merged(base, Merged(profile.value.0, profile.value.1, []), []);
    }
    LayerDecides(profiled, local, keys);
  }

  lemma LayerIsMap(v: Value, keys: Path)
    requires Layer(v, keys)
    ensures OrEmpty(v).Map?
  {
    hide Has, Dig;
    CleanIsMap(v, keys);
  }

  // ---- the environment on top ----

  /** Neither path leads to the other. */
  predicate Apart(p: Path, q: Path) { !(p <= q) && !(q <= p) }

  lemma {:induction false} SetIsThere(v: Value, path: Path, leaf: Value)
    requires v.Map? && path != []
    ensures Dig(SetNested(v, path, leaf), path) == leaf
    decreases |path|
  {
    hide Dig;
    var m := SetNested(v, path, leaf);
    DigOneStep(m, path);
    if |path| == 1 {
      assert path[1..] == [];
      DigHere(leaf);
    } else {
      SetIsThere(if FieldOf(v, path[0]).Map? then v.fields[path[0]] else Map(map[]), path[1..], leaf);
    }
  }

  lemma {:induction false} SetApart(v: Value, path: Path, leaf: Value, keys: Path)
    requires v.Map? && path != [] && Apart(path, keys)
    ensures Dig(SetNested(v, path, leaf), keys) == Dig(v, keys)
    decreases |path|
  {
    hide Dig;
    if keys[0] != path[0] {
      SetElsewhere(v, path, leaf, keys);
    } else {
      var m, inner := SetNested(v, path, leaf), if FieldOf(v, path[0]).Map? then v.fields[path[0]] else Map(map[]);
      DigOneStep(m, keys);
      DigOneStep(v, keys);
      ApartBelow(path, keys);
      SetApart(inner, path[1..], leaf, keys[1..]);
      if !FieldOf(v, path[0]).Map? {
        NothingInAList(FieldOf(v, path[0]), keys[1..]);
        NothingInAnEmptyMap(keys[1..]);
      }
    }
  }

  lemma ApartBelow(p: Path, q: Path)
    requires p != [] && q != [] && p[0] == q[0] && Apart(p, q)
    ensures |p| > 1 && |q| > 1 && Apart(p[1..], q[1..])
  {
    assert p == [p[0]] + p[1..] && q == [q[0]] + q[1..];
  }

  lemma NothingInAnEmptyMap(keys: Path)
    requires keys != []
    ensures Dig(Map(map[]), keys) == Nil
  {
  }

  /** The last override of a path. */
  function LastFor(overrides: seq<Override>, path: Path): Option<Value> {
    if overrides == [] then None
    else if overrides[|overrides| - 1].path == path then Some(overrides[|overrides| - 1].value)
    else LastFor(overrides[..|overrides| - 1], path)
  }

  lemma EnvPathsAreApart(p: Path, q: Path)
    requires p in ENV_PATHS && q in ENV_PATHS && p != q
    ensures Apart(p, q)
  {
    hide Apart;
    assert |p| >= 2 && |q| >= 2;
    if p[0] != q[0] {
      DifferAt(p, q, 0);
    } else if p[1] != q[1] {
      DifferAt(p, q, 1);
    } else {
      DifferAt(p, q, 2);
    }
  }

  lemma DifferAt(p: Path, q: Path, i: nat)
    requires i < |p| && i < |q| && p[i] != q[i]
    ensures Apart(p, q)
  {
  }

  /** What the environment sets is set, whatever the files say, and only that. */
  lemma {:induction false} EnvironmentDecides(v: Value, overrides: seq<Override>, keys: Path)
    requires v.Map? && forall x :: x in overrides ==> x.path in ENV_PATHS
    requires keys in ENV_PATHS || forall p :: p in ENV_PATHS ==> Apart(p, keys)
    ensures Dig(Overridden(v, overrides), keys) ==
            if LastFor(overrides, keys).Some? then LastFor(overrides, keys).value else Dig(v, keys)
  {
    hide Dig, ENV_PATHS, SetNested;
    if overrides != [] {
      var rest, last := overrides[..|overrides| - 1], overrides[|overrides| - 1];
      EnvironmentDecides(v, rest, keys);
      EnvPathIsNamed(last.path);
      if last.path == keys {
        SetIsThere(Overridden(v, rest), last.path, last.value);
      } else {
        if keys in ENV_PATHS { EnvPathsAreApart(last.path, keys); }
        SetApart(Overridden(v, rest), last.path, last.value, keys);
      }
    }
  }

  lemma EnvPathIsNamed(p: Path)
    requires p in ENV_PATHS
    ensures p != []
  {
  }
}
