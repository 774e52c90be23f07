/** The office configuration: overlays merged onto a base, with paths no overlay may change
    (scripts/resolve-office-config.rb). */
module ConfigMerge {
  import opened Text

  /** A YAML value; every scalar is taken as its text, every key as text. */
  datatype Value = Nil | Scalar(text: string) | List(items: seq<Value>) | Map(fields: map<string, Value>)

  type Path = seq<string>

  const PROTECTED_PATHS: seq<Path> := [
    ["office", "version"], ["state_model", "source_of_truth"], ["handoff_contract", "state_files"],
    ["ownership", "enabled"], ["task_input_integrity"],
    ["preflight", "trusted_sources"], ["preflight", "decision_matrix"], ["preflight", "sensitivity_rules"],
    ["preflight", "role_actions"], ["preflight", "default_sensitivity"], ["preflight", "undeclared_scope_sensitivity"],
    ["gateway", "commands"], ["execution_budget", "max_no_progress_actions"], ["execution_budget", "on_exhausted"],
    ["authorization_dispatch"]
  ]

  /** At or below a protected path. */
  predicate Protected(path: Path) {
    exists i :: 0 <= i < |PROTECTED_PATHS| && PROTECTED_PATHS[i] <= path
  }

  function Dig(v: Value, keys: Path): Value
    decreases |keys|
  {
    if keys == [] then v
    else if v.Map? && keys[0] in v.fields then Dig(v.fields[keys[0]], keys[1..])
    else Nil
  }

  // ---- lists whose entries carry an id ----

  function IdText(v: Value): string {
    if v.Map? && "id" in v.fields && v.fields["id"].Scalar? then v.fields["id"].text else ""
  }

  predicate IdKeyed(v: Value) {
    v.List? && v.items != [] && forall e :: e in v.items ==> e.Map? && IdText(e) != ""
  }

  /** An insertion-ordered table of entries by id. */
  datatype Slot = Slot(id: string, entry: Value)

  function Position(t: seq<Slot>, id: string): (i: nat)
    ensures i <= |t|
    ensures i < |t| ==> t[i].id == id
    ensures forall k :: 0 <= k < i ==> t[k].id != id
  {
    if t == [] || t[0].id == id then 0 else 1 + Position(t[1..], id)
  }

  function Put(t: seq<Slot>, id: string, v: Value): seq<Slot> {
    var i := Position(t, id);
    if i < |t| then t[i := Slot(id, v)] else t + [Slot(id, v)]
  }

  function ById(items: seq<Value>): seq<Slot> {
    if items == [] then [] else Put(ById(items[..|items| - 1]), IdText(items[|items| - 1]), items[|items| - 1])
  }

  function Entries(t: seq<Slot>): (vs: seq<Value>)
    ensures |vs| == |t| && forall i :: 0 <= i < |t| ==> vs[i] == t[i].entry
  {
    seq(|t|, i requires 0 <= i < |t| => t[i].entry)
  }

  function WithId(v: Value, id: string): Value {
    if v.Map? && "id" !in v.fields then Map(v.fields["id" := Scalar(id)]) else v
  }

  // ---- the merge ----

  function OrEmpty(v: Value): Value { if v.Nil? then Map(map[]) else v }

  function FieldOf(v: Value, k: string): Value {
    if v.Map? && k in v.fields then v.fields[k] else Nil
  }

  /** What `overlay` put onto `base` at `path` gives. */
  function Merged(base: Value, overlay: Value, path: Path): Value
    decreases overlay, 1
  {
    var b, o := OrEmpty(base), OrEmpty(overlay);
    if !b.Map? || !o.Map? then o
    else
      Map(b.fields + map k | k in o.fields && !Protected(path + [k]) ::
            MergedField(FieldOf(b, k), o.fields[k], path + [k]))
  }

  function MergedField(existing: Value, value: Value, path: Path): Value
    decreases value, 2
  {
    if value.Map? && existing.Map? then Merged(existing, value, path)
    else if IdKeyed(value) && IdKeyed(existing) then
      List(Entries(MergedUpTo(ById(existing.items), value, |value.items|, path)))
    else value
  }

  /** The table after the first `n` entries of an id-keyed overlay. */
  function MergedUpTo(t: seq<Slot>, overlay: Value, n: nat, path: Path): seq<Slot>
    requires IdKeyed(overlay) && n <= |overlay.items|
    decreases overlay, 0, n
  {
    if n == 0 then t
    else
      var was, e := MergedUpTo(t, overlay, n - 1, path), overlay.items[n - 1];
      var i := Position(was, IdText(e));
      Put(was, IdText(e), if i < |was| then WithId(Merged(was[i].entry, e, path + [IdText(e)]), IdText(e)) else e)
  }

  /** The fields once every key outside `todo` has been merged. */
  function FieldsSoFar(b: Value, o: Value, todo: set<string>, path: Path): map<string, Value>
    requires b.Map? && o.Map?
  {
    b.fields + map k | k in o.fields && k !in todo && !Protected(path + [k]) ::
      MergedField(FieldOf(b, k), o.fields[k], path + [k])
  }

  lemma FieldStep(b: Value, o: Value, todo: set<string>, path: Path, k: string)
    requires b.Map? && o.Map? && k in o.fields && k in todo
    ensures var was := FieldsSoFar(b, o, todo, path);
            && (if k in was then was[k] else Nil) == FieldOf(b, k)
            && FieldsSoFar(b, o, todo - {k}, path) ==
                 if Protected(path + [k]) then was else was[k := MergedField(FieldOf(b, k), o.fields[k], path + [k])]
  {
    hide Protected, MergedField;
  }

  lemma AllMerged(b: Value, o: Value, path: Path)
    requires b.Map? && o.Map?
    ensures FieldsSoFar(b, o, o.fields.Keys, path) == b.fields
    ensures Merged(b, o, path) == Map(FieldsSoFar(b, o, {}, path))
  {
    hide Protected, MergedField;
  }

  method DeepMerge(base: Value, overlay: Value, path: Path) returns (r: Value)
    ensures r == Merged(base, overlay, path)
    decreases overlay, 1
  {
    hide IdText, Protected, FieldsSoFar, MergedUpTo, ById;
    var b, o := OrEmpty(base), OrEmpty(overlay);
    if !b.Map? || !o.Map? {
      return o;
    }
    AllMerged(b, o, path);
    var result := b.fields;
    var todo := o.fields.Keys;
    while todo != {}
      invariant todo <= o.fields.Keys
      invariant result == FieldsSoFar(b, o, todo, path)
    {
      var key: string :| key in todo;
      FieldStep(b, o, todo, path, key);
      todo := todo - {key};
      var value, at := o.fields[key], path + [key];
      if Protected(at) {
        continue;
      }
      var existing := if key in result then result[key] else Nil;
      var merged := value;
      if value.Map? && existing.Map? {
        merged := DeepMerge(existing, value, at);
      } else if IdKeyed(value) {
        merged := MergeIdKeyedArrays(existing, value, at);
      }
      result := result[key := merged];
    }
    return Map(result);
  }

  method MergeIdKeyedArrays(base: Value, overlay: Value, path: Path) returns (r: Value)
    requires IdKeyed(overlay)
    ensures r == if IdKeyed(base) then List(Entries(MergedUpTo(ById(base.items), overlay, |overlay.items|, path)))
                 else overlay
    decreases overlay, 0
  {
    hide Merged, IdText, Put, WithId, Position;
    if !IdKeyed(base) {
      return overlay;
    }
    var byId: seq<Slot> := [];
    for i := 0 to |base.items|
      invariant byId == ById(base.items[..i])
    {
      assert base.items[..i + 1][..i] == base.items[..i];
      byId := Put(byId, IdText(base.items[i]), base.items[i]);
    }
    assert base.items[..|base.items|] == base.items;
    for i := 0 to |overlay.items|
      invariant byId == MergedUpTo(ById(base.items), overlay, i, path)
    {
      var entry, id := overlay.items[i], IdText(overlay.items[i]);
      var at := Position(byId, id);
      if at < |byId| {
        var merged := DeepMerge(byId[at].entry, entry, path + [id]);
        byId := Put(byId, id, WithId(merged, id));
      } else {
        byId := Put(byId, id, entry);
      }
    }
    return List(Entries(byId));
  }
}
