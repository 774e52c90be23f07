/** What the plan merge promises: it only adds, it settles after one application, and it keeps
    every rule of the gates. */
module GatePlanRules {
  import opened Text
  import opened AuthorizationLedger
  import opened LedgerIndex
  import opened CompletionGuard
  import opened GateOrdering
  import opened GateWriter
  import opened GateRules
  import opened GatePlan

  /** `g'` is `g`, or `g` was pending and only gained waits or the record requirement. */
  ghost predicate OnlyAdded(g: Gate, g': Gate) {
    || g' == g
    || (&& g.Gate? && g'.Gate?
        && g.status == Val("pending")
        && g' == g.(after := g'.after, requiresRecord := g'.requiresRecord)
        && GateAfter(g) <= GateAfter(g')
        && (NeedsRecord(g) ==> NeedsRecord(g')))
  }

  lemma MergedGateOnlyAdds(gates: Gates, p: PlanItem, at: int)
    requires ItemOk(p) && !ItemConflict(gates, p)
    ensures NameOf(p) in gates ==> OnlyAdded(gates[NameOf(p)], MergedGate(gates, p, at))
    ensures NameOf(p) !in gates ==> MergedGate(gates, p, at).Gate? && MergedGate(gates, p, at).status == Val("pending")
  {
  }

  lemma ListedHasItem(plan: Plan, m: string) returns (p: PlanItem)
    requires m in ListedNames(plan)
    ensures p in plan && NameOf(p) == m
  {
    p :| p in plan && p.PlanItem? && p.name == Val(m);
  }

  /** An applied plan only adds: no stored gate is dropped, changed or loosened, what it adds to
      was pending, what it declares is pending, and the result has no cycle. */
  lemma PlanOnlyAdds(gates: Gates, plan: Plan, at: int)
    requires PlanOk(plan) && Applies(gates, plan, at)
    ensures var r := Merged(gates, plan, at);
            && r.Keys == gates.Keys + ListedNames(plan)
            && (forall m :: m in gates ==> OnlyAdded(gates[m], r[m]))
            && (forall m :: m in r && m !in gates ==> r[m].Gate? && r[m].status == Val("pending"))
            && OrderingOk(r)
  {
    hide ItemOk, ItemConflict, MergedGate, OnlyAdded, Merged, OrderingOk;
    MergedAt(gates, plan, at);
    var r := Merged(gates, plan, at);
    forall m | m in ListedNames(plan)
      ensures m in r && (m in gates ==> OnlyAdded(gates[m], r[m]))
              && (m !in gates ==> r[m].Gate? && r[m].status == Val("pending"))
    {
      var p := ListedHasItem(plan, m);
      MergedGateOnlyAdds(gates, p, at);
    }
    forall m | m in gates && m !in ListedNames(plan) ensures OnlyAdded(gates[m], r[m]) {
      SameIsOnlyAdded(gates[m]);
    }
  }

  lemma SameIsOnlyAdded(g: Gate)
    ensures OnlyAdded(g, g)
  {
  }

  // ---- applying the same plan again ----

  lemma {:induction false} NothingMissing(have: seq<string>, wanted: seq<string>)
    requires forall d :: d in wanted ==> d in have
    ensures Missing(have, wanted) == []
  {
    if wanted != [] {
      NothingMissing(have, wanted[1..]);
    }
  }

  lemma MergedGateSettled(gates: Gates, p: PlanItem, at: int, later: Gates, at': int)
    requires ItemOk(p) && !ItemConflict(gates, p)
    requires NameOf(p) in later && later[NameOf(p)] == MergedGate(gates, p, at)
    ensures !ItemConflict(later, p)
    ensures MergedGate(later, p, at') == later[NameOf(p)]
  {
    var g := later[NameOf(p)];
    assert forall d :: d in GateAfter(g) <==> d in Wanted(p) by {
      hide OrderingOk, IsName;
      if NameOf(p) in gates {
        var had := GateAfter(gates[NameOf(p)]);
        assert forall d :: d in AddedWaits(gates[NameOf(p)], p) <==> d in Wanted(p) && d !in had;
      }
    }
    NothingMissing(GateAfter(g), Wanted(p));
  }

  /** A plan settles after one application: applied again, whenever, it conflicts with nothing
      and changes nothing. */
  lemma PlanIsIdempotent(gates: Gates, plan: Plan, at: int, at': int)
    requires PlanOk(plan) && Applies(gates, plan, at)
    ensures var r := Merged(gates, plan, at);
            Applies(r, plan, at') && Merged(r, plan, at') == r
  {
    hide ItemOk, ItemConflict, MergedGate, Merged, OrderingOk;
    var r := Merged(gates, plan, at);
    MergedAt(gates, plan, at);
    forall p | p in plan ensures !ItemConflict(r, p) && MergedGate(r, p, at') == r[NameOf(p)] {
      MergedGateSettled(gates, p, at, r, at');
    }
    UnchangedMeansSame(r, plan, at');
  }

  // ---- the rules of the gates ----

  lemma OnlyAddedStaysSound(n: string, g: Gate, g': Gate, ix: Index)
    requires GateSound(n, g, ix) && OnlyAdded(g, g') && RunRecordOk(g')
    ensures GateSound(n, g', ix)
    ensures g'.status == Val("pass") || GateResolved(g, Some(ix)) ==> g' == g
  {
    hide ValidGrant, IdNumber, RanOk;
  }

  lemma MergedRecordOk(gates: Gates, p: PlanItem, at: int)
    requires ItemOk(p) && !ItemConflict(gates, p)
    requires NameOf(p) in gates ==> RunRecordOk(gates[NameOf(p)])
    ensures RunRecordOk(MergedGate(gates, p, at))
  {
    hide RanOk;
  }

  lemma DeclaredSound(gates: Gates, p: PlanItem, at: int, ix: Index)
    requires ItemOk(p) && NameOf(p) !in gates
    ensures GateSound(NameOf(p), MergedGate(gates, p, at), ix)
  {
    hide ValidGrant, IdNumber, RanOk;
  }

  lemma ListedSound(gates: Gates, p: PlanItem, at: int, ix: Index)
    requires ItemOk(p) && !ItemConflict(gates, p)
    requires NameOf(p) in gates ==> GateSound(NameOf(p), gates[NameOf(p)], ix)
    ensures GateSound(NameOf(p), MergedGate(gates, p, at), ix)
    ensures NameOf(p) in gates && (MergedGate(gates, p, at).status == Val("pass")
                                   || GateResolved(gates[NameOf(p)], Some(ix))) ==>
              MergedGate(gates, p, at) == gates[NameOf(p)]
  {
    hide ItemOk, ItemConflict, MergedGate, OnlyAdded, GateResolved, RunRecordOk;
    MergedGateOnlyAdds(gates, p, at);
    if NameOf(p) in gates {
      MergedRecordOk(gates, p, at);
      OnlyAddedStaysSound(NameOf(p), gates[NameOf(p)], MergedGate(gates, p, at), ix);
    } else {
      DeclaredSound(gates, p, at, ix);
    }
  }

  /** An applied plan keeps every rule of the gates and reopens none. */
  lemma PlanKeepsRules(gates: Gates, plan: Plan, at: int, es: seq<Entry>)
    requires PlanOk(plan) && Applies(gates, plan, at) && GatesSound(gates, es)
    ensures GatesSound(Merged(gates, plan, at), es)
    ensures NoneReopened(gates, Merged(gates, plan, at), IndexOf(es))
  {
    hide ItemOk, ItemConflict, MergedGate, Merged, OrderingOk, OnlyAdded, GateSound, GateResolved, Accepted, IndexOf;
    var r, ix := Merged(gates, plan, at), IndexOf(es);
    MergedAt(gates, plan, at);
    forall m | m in r
      ensures GateSound(m, r[m], ix)
      ensures m in gates && (GateStatusIs(r[m], "pass") || GateResolved(gates[m], Some(ix))) ==> r[m] == gates[m]
      ensures GateStatusIs(r[m], "pass") ==> m in gates
    {
      if m in ListedNames(plan) {
        var p := ListedHasItem(plan, m);
        ListedSound(gates, p, at, ix);
        MergedGateOnlyAdds(gates, p, at);
      }
    }
    forall m | m in r && r[m].Gate? && r[m].status == Val("pass") ensures WaitsResolved(r, m, ix) {
      assert GateStatusIs(r[m], "pass");
      assert WaitsResolved(gates, m, ix);
    }
  }

  predicate GateStatusIs(g: Gate, status: string) { g.Gate? && g.status == Val(status) }
}
