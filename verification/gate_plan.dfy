/** The project manager's gate plan: its own shape, and its add-only merge into the stored gates
    (plan_gate_errors and reconcile_gate_plan of scripts/completion-guard.rb). */
module GatePlan {
  import opened Text
  import opened AuthorizationLedger
  import opened CompletionGuard
  import opened GateOrdering

  datatype PlanItem =
    | NotAnItem
    | PlanItem(name: Field<string>, reason: Field<string>, after: Field<seq<string>>,
               binding: Field<string>, record: Field<bool>, extra: bool)

  type Plan = seq<PlanItem>

  // ---- the shape of a plan ----

  predicate ItemOk(p: PlanItem) {
    && p.PlanItem?
    && !p.extra
    && p.name.Val? && IsName(p.name.value)
    && NonBlank(p.reason)
    && (p.after.Absent?
        || (p.after.Val? && p.after.value != [] && (forall d :: d in p.after.value ==> IsName(d))
            && Distinct(p.after.value) && p.name.value !in p.after.value))
    && (p.binding.Absent? || (p.binding.Val? && p.binding.value in ACTIONS))
    && (p.record.Absent? || p.record == Val(true))
  }

  function NameOf(p: PlanItem): string {
    if p.PlanItem? && p.name.Val? then p.name.value else ""
  }

  predicate NamesDistinct(plan: Plan) {
    forall i, j :: 0 <= i < j < |plan| && plan[i].PlanItem? && plan[j].PlanItem? && plan[i].name.Val? ==>
          plan[i].name != plan[j].name
  }

  function ListedNames(plan: Plan): set<string> {
    set p | p in plan && p.PlanItem? && p.name.Val? :: NameOf(p)
  }

  function Wanted(p: PlanItem): seq<string> {
    if p.PlanItem? && p.after.Val? then p.after.value else []
  }

  function Restrict(s: seq<string>, names: set<string>): (r: seq<string>)
    ensures forall d :: d in r <==> d in s && d in names
    ensures Distinct(s) ==> Distinct(r)
  {
    if s == [] then []
    else
      var rest := Restrict(s[1..], names);
      assert s == [s[0]] + s[1..];
      if s[0] in names then [s[0]] + rest else rest
  }

  const BARE := Gate(Absent, Absent, Absent, Absent, [], Absent, Absent, Absent, Absent, Absent, Absent)

  /** The waits among the listed gates only, as a gate map of its own. */
  function ListedGraph(plan: Plan): Gates
    requires forall p :: p in plan ==> ItemOk(p)
  {
    ListedUpTo(plan, |plan|)
  }

  function ListedUpTo(plan: Plan, n: nat): Gates
    requires n <= |plan| && forall p :: p in plan ==> ItemOk(p)
  {
    if n == 0 then map[]
    else
      var p := plan[n - 1];
      var inner := Restrict(Wanted(p), ListedNames(plan));
      ListedUpTo(plan, n - 1)[NameOf(p) := if inner == [] then BARE else BARE.(after := Val(inner))]
  }

  /** A plan the sync may apply: every item well formed, no gate twice, no cycle among the listed gates. */
  ghost predicate PlanOk(plan: Plan) {
    && (forall p :: p in plan ==> ItemOk(p))
    && NamesDistinct(plan)
    && OrderingOk(ListedGraph(plan))
  }

  datatype PlanFault = ItemFault(index: nat) | GateTwice(name: string) | PlanCycle

  method PlanGateErrors(plan: Plan) returns (errors: seq<PlanFault>)
    ensures errors == [] <==> PlanOk(plan)
  {
    errors := [];
    var seen: set<string> := {};
    for i := 0 to |plan|
      invariant errors == [] <==> (forall k :: 0 <= k < i ==> ItemOk(plan[k])) && NamesDistinct(plan[..i])
      invariant errors == [] ==> forall m :: m in seen <==> exists k :: 0 <= k < i && plan[k].name == Val(m)
    {
      hide ItemOk;
      var p := plan[i];
      if p.PlanItem? && p.name.Val? && IsName(p.name.value) {
        if NameOf(p) in seen {
          errors := errors + [GateTwice(NameOf(p))];
        }
        seen := seen + {NameOf(p)};
      }
      if !ItemOk(p) {
        errors := errors + [ItemFault(i)];
      }
      ItemNamed(p);
      NamesDistinctStep(plan, i);
    }
    assert plan[..|plan|] == plan;
    if errors != [] {
      return;
    }
    var problems := OrderingErrors(ListedGraph(plan));
    if problems != [] {
      errors := [PlanCycle];
    }
  }

  lemma ItemNamed(p: PlanItem)
    ensures ItemOk(p) ==> p.PlanItem? && p.name == Val(NameOf(p)) && IsName(NameOf(p))
  {
  }

  lemma NamesDistinctStep(plan: Plan, i: nat)
    requires i < |plan|
    ensures NamesDistinct(plan[..i + 1]) <==>
              && NamesDistinct(plan[..i])
              && (plan[i].PlanItem? ==> forall k :: 0 <= k < i && plan[k].PlanItem? && plan[k].name.Val? ==>
                  plan[k].name != plan[i].name)
  {
    var a, b := plan[..i], plan[..i + 1];
    assert forall k :: 0 <= k < i ==> a[k] == b[k] == plan[k];
    assert b[i] == plan[i];
  }

  // ---- merging one item ----

  function BindingValue(f: Field<string>): Option<string> {
    if f.Val? then Some(f.value) else None
  }

  function Missing(have: seq<string>, wanted: seq<string>): (r: seq<string>)
    ensures forall d :: d in r <==> d in wanted && d !in have
    ensures Distinct(wanted) ==> Distinct(r)
  {
    if wanted == [] then []
    else
      var rest := Missing(have, wanted[1..]);
      assert wanted == [wanted[0]] + wanted[1..];
      if wanted[0] in have then rest else [wanted[0]] + rest
  }

  function AddedWaits(g: Gate, p: PlanItem): seq<string> {
    Missing(GateAfter(g), Wanted(p))
  }

  predicate AddsRecord(g: Gate, p: PlanItem)
    requires p.PlanItem?
  {
    p.record == Val(true) && !NeedsRecord(g)
  }

  predicate SameBinding(f: Field<string>, wanted: Field<string>) {
    !f.Bad? && !wanted.Bad? && BindingValue(f) == BindingValue(wanted)
  }

  /** Would the item change or drop something of the stored gate, or add to a gate that is not pending? */
  predicate ItemConflict(gates: Gates, p: PlanItem)
    requires ItemOk(p)
  {
    var n := NameOf(p);
    n in gates &&
    var g := gates[n];
    || g.NotAMap?
    || !SameBinding(g.binding, p.binding)
    || (exists d :: d in GateAfter(g) && d !in Wanted(p))
    || (NeedsRecord(g) && p.record != Val(true))
    || ((AddedWaits(g, p) != [] || AddsRecord(g, p)) && g.status != Val("pending"))
  }

  /** The gate an item leaves: a new pending gate, or the stored one with what it lacks added. */
  function MergedGate(gates: Gates, p: PlanItem, at: int): Gate
    requires ItemOk(p)
  {
    var n := NameOf(p);
    if n !in gates || gates[n].NotAMap? then
      Gate(Val("pending"), Val("pm"), p.reason, Val(Instant(at)), [], p.binding, Absent, Absent,
           if Wanted(p) == [] then Absent else Val(Wanted(p)),
           if p.record == Val(true) then Val(true) else Absent, Absent)
    else
      var g := gates[n];
      var waited := if AddedWaits(g, p) == [] then g else g.(after := Val(GateAfter(g) + AddedWaits(g, p)));
      if AddsRecord(g, p) then waited.(requiresRecord := Val(true)) else waited
  }

  /** The merge of the first `n` items. */
  function MergedUpTo(gates: Gates, plan: Plan, n: nat, at: int): Gates
    requires n <= |plan| && forall p :: p in plan ==> ItemOk(p)
  {
    if n == 0 then gates
    else MergedUpTo(gates, plan, n - 1, at)[NameOf(plan[n - 1]) := MergedGate(gates, plan[n - 1], at)]
  }

  function Merged(gates: Gates, plan: Plan, at: int): Gates
    requires forall p :: p in plan ==> ItemOk(p)
  {
    MergedUpTo(gates, plan, |plan|, at)
  }

  /** A plan applies when no item conflicts with the gate stored under its name and the result
      is well ordered. */
  ghost predicate Applies(gates: Gates, plan: Plan, at: int)
    requires forall p :: p in plan ==> ItemOk(p)
  {
    (forall p :: p in plan ==> !ItemConflict(gates, p)) && OrderingOk(Merged(gates, plan, at))
  }

  datatype Change = GateDeclared(name: string) | WaitsAdded(name: string, added: seq<string>)
    | RecordAdded(name: string)

  function ItemChanges(gates: Gates, p: PlanItem): (r: seq<Change>)
    requires ItemOk(p) && !ItemConflict(gates, p)
    ensures forall at :: r == [] <==> NameOf(p) in gates && MergedGate(gates, p, at) == gates[NameOf(p)]
  {
    var n := NameOf(p);
    if n !in gates then [GateDeclared(n)]
    else
      var g := gates[n];
      (if AddedWaits(g, p) == [] then [] else [WaitsAdded(n, AddedWaits(g, p))]) +
      (if AddsRecord(g, p) then [RecordAdded(n)] else [])
  }

  /** The number of changes the first `n` items make, one history row each. */
  function ChangeRows(gates: Gates, plan: Plan, n: nat): nat
    requires n <= |plan| && forall p :: p in plan ==> ItemOk(p)
  {
    if n == 0 then 0
    else
      var p := plan[n - 1];
      ChangeRows(gates, plan, n - 1) + (if ItemConflict(gates, p) then 0 else |ItemChanges(gates, p)|)
  }

  // ---- the merge, gate by gate ----

  lemma {:induction false} MergedUpToAt(gates: Gates, plan: Plan, n: nat, at: int, m: string)
    requires n <= |plan| && (forall p :: p in plan ==> ItemOk(p)) && NamesDistinct(plan)
    ensures forall k :: 0 <= k < n && NameOf(plan[k]) == m ==>
              m in MergedUpTo(gates, plan, n, at) && MergedUpTo(gates, plan, n, at)[m] == MergedGate(gates, plan[k], at)
    ensures (forall k :: 0 <= k < n ==> NameOf(plan[k]) != m) ==>
              (m in MergedUpTo(gates, plan, n, at) <==> m in gates)
              && (m in gates ==> MergedUpTo(gates, plan, n, at)[m] == gates[m])
  {
    hide ItemOk, MergedGate;
    forall k | 0 <= k < n { ItemNamed(plan[k]); }
    if n > 0 {
      MergedUpToAt(gates, plan, n - 1, at, m);
    }
  }

  /** The merge never touches a gate the plan does not list, and gives each listed gate its own item's merge. */
  lemma MergedAt(gates: Gates, plan: Plan, at: int)
    requires (forall p :: p in plan ==> ItemOk(p)) && NamesDistinct(plan)
    ensures forall p :: p in plan ==>
              NameOf(p) in Merged(gates, plan, at) && Merged(gates, plan, at)[NameOf(p)] == MergedGate(gates, p, at)
    ensures forall m :: m !in ListedNames(plan) ==> (m in Merged(gates, plan, at) <==> m in gates)
    ensures forall m :: m !in ListedNames(plan) && m in gates ==> Merged(gates, plan, at)[m] == gates[m]
  {
    hide ItemOk, MergedGate, MergedUpTo, NamesDistinct;
    forall p | p in plan
      ensures NameOf(p) in Merged(gates, plan, at) && Merged(gates, plan, at)[NameOf(p)] == MergedGate(gates, p, at)
    {
      ItemNamed(p);
      var k :| 0 <= k < |plan| && plan[k] == p;
      MergedUpToAt(gates, plan, |plan|, at, NameOf(p));
    }
    forall m | m !in ListedNames(plan)
      ensures (m in Merged(gates, plan, at) <==> m in gates) && (m in gates ==> Merged(gates, plan, at)[m] == gates[m])
    {
      forall k | 0 <= k < |plan| ensures NameOf(plan[k]) != m {
        ItemNamed(plan[k]);
        assert plan[k] in plan;
      }
      MergedUpToAt(gates, plan, |plan|, at, m);
    }
  }

  /** Reconciles a valid plan with the stored gates: a copy with every item merged and the list of
      changes, or, on the first conflict, the stored gates unchanged and no changes. */
  method ReconcileGatePlan(gates: Gates, plan: Plan, at: int)
    returns (result: Gates, changes: seq<Change>, conflict: bool)
    requires PlanOk(plan)
    ensures conflict <==> !Applies(gates, plan, at)
    ensures conflict ==> result == gates && changes == []
    ensures !conflict ==> result == Merged(gates, plan, at)
    ensures !conflict ==> (changes == [] <==> result == gates)
    ensures !conflict ==> |changes| == ChangeRows(gates, plan, |plan|)
  {
    hide ItemOk, MergedGate, ItemConflict, OrderingOk, AddedWaits, AddsRecord, MergeSoFar, ItemChanges, NamesDistinct;
    result, changes, conflict := gates, [], false;
    NothingMergedYet(gates, plan, at);
    for i := 0 to |plan|
      invariant MergeSoFar(gates, plan, i, at, result, changes) && !conflict
    {
      var p := plan[i];
      ItemNamed(p);
      ItemMergesLocally(gates, plan, i, at, result, changes);
      if ItemConflict(result, p) {
        assert p in plan;
        return gates, [], true;
      }
      changes := changes + ItemChanges(result, p);
      result := result[NameOf(p) := MergedGate(result, p, at)];
    }
    AllMerged(gates, plan, at, result, changes);
    var problems := OrderingErrors(result);
    if problems != [] {
      return gates, [], true;
    }
  }

  /** The loop of the merge after `i` items. */
  ghost predicate MergeSoFar(gates: Gates, plan: Plan, i: nat, at: int, result: Gates, changes: seq<Change>)
    requires i <= |plan| && forall p :: p in plan ==> ItemOk(p)
  {
    && result == MergedUpTo(gates, plan, i, at)
    && (forall k :: 0 <= k < i ==> !ItemConflict(gates, plan[k]))
    && |changes| == ChangeRows(gates, plan, i)
    && (changes == [] <==> forall k :: 0 <= k < i ==>
        NameOf(plan[k]) in gates && MergedGate(gates, plan[k], at) == gates[NameOf(plan[k])])
  }

  lemma NothingMergedYet(gates: Gates, plan: Plan, at: int)
    requires forall p :: p in plan ==> ItemOk(p)
    ensures MergeSoFar(gates, plan, 0, at, gates, [])
  {
    hide ItemOk, MergedGate, ItemConflict;
  }

  /** An item sees the stored gate under its own name: no earlier item had that name. */
  lemma ItemMergesLocally(gates: Gates, plan: Plan, i: nat, at: int, result: Gates, changes: seq<Change>)
    requires i < |plan| && (forall p :: p in plan ==> ItemOk(p)) && NamesDistinct(plan)
    requires MergeSoFar(gates, plan, i, at, result, changes)
    ensures var p := plan[i];
            && ItemConflict(result, p) == ItemConflict(gates, p)
            && (!ItemConflict(result, p) ==>
                  MergeSoFar(gates, plan, i + 1, at, result[NameOf(p) := MergedGate(result, p, at)],
                             changes + ItemChanges(result, p)))
  {
    hide ItemOk, MergedGate, ItemConflict, ItemChanges, NamesDistinct;
    var p := plan[i];
    NotYetMerged(gates, plan, i, at);
    ConflictLocal(gates, result, p);
    MergeLocal(gates, result, p, at);
    if !ItemConflict(gates, p) {
      ChangesLocal(gates, result, p);
      var now := ItemChanges(gates, p);
      assert changes + now == [] <==> changes == [] && now == [];
      assert now == [] <==> NameOf(p) in gates && MergedGate(gates, p, at) == gates[NameOf(p)];
    }
  }

  lemma AllMerged(gates: Gates, plan: Plan, at: int, result: Gates, changes: seq<Change>)
    requires (forall p :: p in plan ==> ItemOk(p)) && NamesDistinct(plan)
    requires MergeSoFar(gates, plan, |plan|, at, result, changes)
    ensures result == Merged(gates, plan, at)
    ensures forall p :: p in plan ==> !ItemConflict(gates, p)
    ensures |changes| == ChangeRows(gates, plan, |plan|)
    ensures changes == [] <==> result == gates
  {
    hide ItemOk, MergedGate, ItemConflict, NamesDistinct;
    forall p | p in plan ensures !ItemConflict(gates, p) {
      var k :| 0 <= k < |plan| && plan[k] == p;
    }
    UnchangedMeansSame(gates, plan, at);
  }

  lemma NotYetMerged(gates: Gates, plan: Plan, i: nat, at: int)
    requires i < |plan| && (forall p :: p in plan ==> ItemOk(p)) && NamesDistinct(plan)
    ensures var n, r := NameOf(plan[i]), MergedUpTo(gates, plan, i, at);
            (n in r <==> n in gates) && (n in gates ==> r[n] == gates[n])
  {
    hide ItemOk, MergedGate;
    forall k | 0 <= k <= i { ItemNamed(plan[k]); }
    MergedUpToAt(gates, plan, i, at, NameOf(plan[i]));
  }

  lemma ChangesLocal(gates: Gates, result: Gates, p: PlanItem)
    requires ItemOk(p) && !ItemConflict(gates, p) && !ItemConflict(result, p)
    requires (NameOf(p) in result <==> NameOf(p) in gates)
             && (NameOf(p) in gates ==> result[NameOf(p)] == gates[NameOf(p)])
    ensures ItemChanges(result, p) == ItemChanges(gates, p)
  {
    hide ItemOk, AddedWaits, AddsRecord, SameBinding;
  }

  lemma ConflictLocal(gates: Gates, result: Gates, p: PlanItem)
    requires ItemOk(p)
    requires (NameOf(p) in result <==> NameOf(p) in gates)
             && (NameOf(p) in gates ==> result[NameOf(p)] == gates[NameOf(p)])
    ensures ItemConflict(result, p) == ItemConflict(gates, p)
  {
    hide ItemOk, AddedWaits, AddsRecord;
  }

  lemma MergeLocal(gates: Gates, result: Gates, p: PlanItem, at: int)
    requires ItemOk(p)
    requires (NameOf(p) in result <==> NameOf(p) in gates)
             && (NameOf(p) in gates ==> result[NameOf(p)] == gates[NameOf(p)])
    ensures MergedGate(result, p, at) == MergedGate(gates, p, at)
  {
    hide ItemOk, AddedWaits, AddsRecord;
  }

  lemma UnchangedMeansSame(gates: Gates, plan: Plan, at: int)
    requires (forall p :: p in plan ==> ItemOk(p)) && NamesDistinct(plan)
    ensures Merged(gates, plan, at) == gates <==>
              forall k :: 0 <= k < |plan| ==>
                    NameOf(plan[k]) in gates && MergedGate(gates, plan[k], at) == gates[NameOf(plan[k])]
  {
    hide ItemOk, MergedGate, MergedUpTo, NamesDistinct;
    MergedAt(gates, plan, at);
    var result := Merged(gates, plan, at);
    if forall k :: 0 <= k < |plan| ==>
         NameOf(plan[k]) in gates && MergedGate(gates, plan[k], at) == gates[NameOf(plan[k])] {
      forall m ensures (m in result <==> m in gates) && (m in gates ==> result[m] == gates[m]) {
        if m in ListedNames(plan) {
          var p :| p in plan && p.PlanItem? && p.name == Val(m);
          var k :| 0 <= k < |plan| && plan[k] == p;
        }
      }
      assert result == gates;
    }
    if result == gates {
      forall k | 0 <= k < |plan| ensures NameOf(plan[k]) in gates
          && MergedGate(gates, plan[k], at) == gates[NameOf(plan[k])] {
        assert plan[k] in plan;
      }
    }
  }
}
