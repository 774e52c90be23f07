/** How a task gets finished: by a reviewer's output or a human decision, never past the guard
    (scripts/sync-status-from-output.rb, scripts/reconcile-decision.rb). */
module Finishing {
  import opened Text
  import opened LedgerIndex
  import opened CompletionGuard
  import opened BranchProjection
  import opened StatusWriters
  import opened GatePlan
  import TaskRules

  // ---- role outputs ----

  /** The roles with a row of their own in the transition table, the reviewer apart. */
  const WORKERS: set<string> := {"pm", "dev", "dev-2", "debugger", "devops", "free-roam"}

  /** An open task is finished by a sync exactly when the reviewer (or an actor the table has no row
      for) hands it to done in an output not synced yet and the guard has nothing open. */
  lemma SyncFinishesExactly(s: Status, index: Option<Index>, o: RoleOutput)
    requires OldPhase(s) != "done" && o.queuePhase != "done"
    ensures (SyncSpec(s, index, o).Wrote? && SyncSpec(s, index, o).status.phase == "done") <==>
              && !AlreadySynced(s, o) && NextAgent(o) == "done" && o.actor !in WORKERS
              && MayBeDone(s.gates, s.branches, index)
  {
    hide NextAgent, OldPhase, MayBeDone, Projected, PlanFor, SyncedStatus, PhaseAfter;
    TableFinishes(o.actor, NextAgent(o), o.parallel, o.queuePhase, OldPhase(s));
    if SyncSpec(s, index, o).Wrote? {
      var planned := PlanFor(s.gates, o);
      var b := TaskRules.BeforeProjection(s, o, planned.table, planned.rows);
      ProjectionFrame(b);
    }
    OnlyPmPlans(s.gates, o);
  }

  lemma OnlyPmPlans(t: GateTable, o: RoleOutput)
    ensures o.actor != "pm" ==> PlanFor(t, o).Planned?
  {
    hide PlanOk, Applies, Merged, ChangeRows;
  }

  lemma TableFinishes(actor: string, next: string, parallel: bool, queuePhase: string, was: string)
    requires was != "done" && queuePhase != "done"
    ensures PhaseAfter(actor, next, parallel, queuePhase, was) == "done" <==> next == "done" && actor !in WORKERS
  {
  }

  // ---- human decisions ----

  /** A decision the reconciler can act on. */
  predicate Actionable(d: Decision) { DecisionMap(d.kind).Some? && !Blank(d.decidedAt) }

  /** The decision that counts is the last actionable one of the file. */
  lemma {:induction false} LatestIsLast(ds: seq<Decision>)
    ensures Latest(ds).None? <==> forall d :: d in ds ==> !Actionable(d)
    ensures Latest(ds).Some? ==>
              exists i :: 0 <= i < |ds| && ds[i] == Latest(ds).value && Actionable(ds[i])
                          && forall j :: i < j < |ds| ==> !Actionable(ds[j])
  {
    hide DecisionMap, Blank;
    if ds != [] {
      var front, last := ds[..|ds| - 1], ds[|ds| - 1];
      LatestIsLast(front);
      assert ds == front + [last];
      if Actionable(last) {
        assert ds[|ds| - 1] == Latest(ds).value;
      }
    }
  }

  /** The approval names no phase, or the one the task is in. */
  predicate MadeFor(s: Status, d: Decision) { Strip(d.against) == "" || Strip(d.against) == s.phase }

  /** An approval given for another phase than the task's, on a task with gates. */
  predicate Superseded(s: Status, d: Decision) { !s.gates.NoGates? && !MadeFor(s, d) }

  /** When the reconciler finishes an open task: the newest decision is an approval not applied yet,
      given for this phase, and the guard has nothing open. */
  lemma ApprovalFinishesExactly(s: Status, index: Option<Index>, ds: seq<Decision>)
    requires s.phase != "done"
    ensures (DecisionSpec(s, index, ds).Wrote? && DecisionSpec(s, index, ds).status.phase == "done") <==>
              && Latest(ds).Some? && Latest(ds).value.kind == "approve"
              && s.decisionApplied != Latest(ds).value.decidedAt
              && MayBeDone(s.gates, s.branches, index)
              && !Superseded(s, Latest(ds).value)
  {
    hide Latest, MayBeDone, Projected, Strip;
    if Latest(ds).Some? && DecisionMap(Latest(ds).value.kind).Some? {
      var m := DecisionMap(Latest(ds).value.kind).value;
      ProjectionFrame(s.(phase := m.phase, state := m.phase, currentAgent := m.agent, ready := m.ready));
      OnlyApproveIsDone(Latest(ds).value.kind);
    }
  }

  lemma OnlyApproveIsDone(kind: string)
    ensures DecisionMap(kind).Some? && DecisionMap(kind).value.phase == "done" <==> kind == "approve"
  {
  }
}
