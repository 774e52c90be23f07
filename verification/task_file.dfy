/** One task's status.yaml and the writers that change it in place. Each method runs inside the
    task lock; `index` is the authorization ledger it read, none when it could not. */
module TaskFile {
  import opened Text
  import opened LedgerIndex
  import opened CompletionGuard
  import opened GatePlan
  import opened BranchProjection
  import opened StatusWriters
  import GateWriter
  import PlanRevisions

  /** Where an outcome leaves the status. */
  function Left(was: Status, o: Outcome): Status {
    if o.Wrote? then o.status else was
  }

  function CodeOf(o: Outcome): nat {
    if o.Refused? then o.code else 0
  }

  class StatusFile {
    var status: Status

    constructor (s: Status)
      ensures status == s
    {
      status := s;
    }

    /** BranchProjection.apply!: the waits are rebuilt, then the phase follows the branches. */
    method ApplyProjection()
      modifies this
      ensures status == Projected(old(status))
    {
      hide GlobalWaits, BranchWaits, OnlyBlocked, WAIT_PREFIX;
      if !Declared(status.branches) {
        return;
      }
      var waits := RebuiltWaits(status.waitingFor, status.branches.items);
      GlobalsOfRebuilt(status);
      status := status.(waitingFor := waits);
      if status.phase in OVERRIDE_PHASES {
        return;
      }
      if OnlyBlocked(status.branches) {
        status := status.(phase := "blocked", state := "blocked", ready := false);
      } else if status.phase == "blocked" && CanResume(status) {
        status := status.(phase := "assigned", state := "assigned");
        if status.primary.Some? {
          status := status.(currentAgent := status.primary);
        }
        status := status.(ready := true);
      }
    }

    /** scripts/sync-status-from-output.rb. */
    method Sync(o: RoleOutput, index: Option<Index>) returns (code: nat)
      modifies this
      ensures status == Left(old(status), SyncSpec(old(status), index, o))
      ensures code == CodeOf(SyncSpec(old(status), index, o))
    {
      hide NextAgent, PhaseAfter, MayBeDone, OldPhase, PlanFor, SyncedStatus;
      if status.lastSynced == Some(o.artifact) {
        return 0;
      }
      var next := NextAgent(o);
      if next == "" {
        return 0;
      }
      var newPhase := PhaseAfter(o.actor, next, o.parallel, o.queuePhase, OldPhase(status));
      if newPhase == "done" || (next == "done" && o.actor != "free-roam") {
        if !MayBeDone(status.gates, status.branches, index) {
          return 5;
        }
      }
      var refused := ApplyPlan(o);
      if refused != 0 {
        return refused;
      }
      AfterThePlan(old(status), o, PlanFor(old(status).gates, o).table, PlanFor(old(status).gates, o).rows);
      Advance(o, next, newPhase);
      return 0;
    }

    /** The rest of the sync: counters, phase, agent, waits and bookkeeping, then the projection. */
    method Advance(o: RoleOutput, next: string, newPhase: string)
      requires next == NextAgent(o) && newPhase == SyncPhase(status, o)
      modifies this
      ensures status == SyncedStatus(old(status), o, old(status).gates, 0)
    {
      hide NextAgent, SyncPhase, Projected;
      if o.actor == "free-roam" {
        status := status.(freeRoamEntries := status.freeRoamEntries + 1);
      }
      if next in WORK_AGENTS {
        status := status.(iteration := status.iteration + 1);
      }
      status := status.(phase := newPhase, state := newPhase, currentAgent := Some(next));
      status := status.(ready := newPhase != "blocked" && next != "done");
      if !Declared(status.branches) {
        status := status.(waitingFor := []);
      }
      status := status.(historyRows := status.historyRows + 1, lastSynced := Some(o.artifact));
      ApplyProjection();
    }

    /** The plan part of the sync: the gates change and gain their history rows, or nothing does. */
    method ApplyPlan(o: RoleOutput) returns (refused: nat)
      modifies this
      ensures match PlanFor(old(status.gates), o)
              case PlanRefused(code) => refused == code && code != 0 && status == old(status)
              case Planned(t, rows) =>
                refused == 0 && status == old(status).(gates := t, historyRows := old(status.historyRows) + rows)
    {
      hide Applies, Merged, ItemOk, NamesDistinct, ListedGraph, ChangeRows;
      if o.actor != "pm" || o.plan.Absent? {
        return 0;
      }
      if !o.plan.Val? {
        return 3;
      }
      var problems := PlanGateErrors(o.plan.value);
      if problems != [] {
        return 3;
      }
      if status.gates.GatesNotAMap? {
        return 6;
      }
      var planned, changes, conflict := ReconcileGatePlan(GateWriter.Stored(status.gates), o.plan.value, o.now);
      if conflict {
        return 6;
      }
      if changes != [] {
        status := status.(gates := GateMap(planned), historyRows := status.historyRows + |changes|);
      }
      return 0;
    }

    /** scripts/force-status-route.rb. */
    method ForceRoute(next: string, newPhase: string, index: Option<Index>) returns (code: nat)
      modifies this
      ensures status == Left(old(status), ForceSpec(old(status), index, next, newPhase))
      ensures code == CodeOf(ForceSpec(old(status), index, next, newPhase))
    {
      hide MayBeDone, Projected;
      if newPhase == "done" || next == "done" {
        if !MayBeDone(status.gates, status.branches, index) {
          return 5;
        }
      }
      status := status.(phase := newPhase, state := newPhase, currentAgent := Some(next));
      status := status.(ready := newPhase != "blocked" && next != "done");
      status := status.(historyRows := status.historyRows + 1);
      ApplyProjection();
      return 0;
    }

    /** scripts/reconcile-decision.rb. */
    method ReconcileDecision(ds: seq<Decision>, index: Option<Index>)
      modifies this
      ensures status == Left(old(status), DecisionSpec(old(status), index, ds))
    {
      hide MayBeDone, Projected, DecisionMap, Latest, Strip;
      var latest := Latest(ds);
      if latest.None? || status.decisionApplied == latest.value.decidedAt {
        return;
      }
      var mapping := DecisionMap(latest.value.kind);
      if mapping.None? {
        return;
      }
      if mapping.value.phase == "done" && !MayBeDone(status.gates, status.branches, index) {
        return;
      }
      var against := Strip(latest.value.against);
      if latest.value.kind == "approve" && !status.gates.NoGates? && against != "" && against != status.phase {
        status := status.(decisionApplied := latest.value.decidedAt, historyRows := status.historyRows + 1);
        return;
      }
      status := status.(phase := mapping.value.phase, state := mapping.value.phase);
      status := status.(currentAgent := mapping.value.agent, ready := mapping.value.ready);
      ApplyProjection();
      status := status.(decisionApplied := latest.value.decidedAt);
      KeepsHistory(old(status).(phase := mapping.value.phase, state := mapping.value.phase,
                                currentAgent := mapping.value.agent, ready := mapping.value.ready));
      status := status.(historyRows := status.historyRows + 1);
    }

    /** scripts/reconcile-blocked-status.rb. */
    method ReconcileBlocked(u: Unblock)
      modifies this
      ensures status == Left(old(status), UnblockSpec(old(status), u))
    {
      hide Projected, Strip, RoutedPhase, EffectivePhase, Dependencies, Failed;
      var deps := Dependencies(status.blockedOn);
      if EffectivePhase(status) != "blocked" || deps == [] {
        return;
      }
      var failed, pending := DependencyStates(deps, u);
      if failed != [] {
        status := status.(phase := "escalated", state := "escalated", currentAgent := Some("free-roam"), ready := true);
      } else if pending == [] {
        var routed := RoutedPhase(status, u);
        var primary := if status.primary.Some? then Strip(status.primary.value) else "";
        status := status.(phase := routed, state := routed,
                          currentAgent := Some(if primary == "" then "pm" else primary));
        if Declared(status.branches) {
          status := status.(blockedOn := []);
        }
        status := status.(ready := u.setReady || status.ready);
      } else {
        return;
      }
      if u.clearWaits {
        status := status.(waitingFor := []);
      }
      KeepsHistory(status);
      ApplyProjection();
      status := status.(historyRows := status.historyRows + 1);
    }

    /** mark_validation_failed of scripts/enforce-output-contract.rb. */
    method MarkValidationFailed()
      modifies this
      ensures status == Left(old(status), ValidationFailedSpec(old(status)))
    {
      var was := status.phase;
      status := status.(phase := "validation_failed", state := "validation_failed", ready := false);
      status := status.(currentAgent := Some("free-roam"));
      status := status.(validationRetries := status.validationRetries + 1);
      if was != "validation_failed" {
        status := status.(historyRows := status.historyRows + 1);
      }
    }

    /** scripts/update-task-branch.rb. */
    method UpdateBranch(c: BranchCommand) returns (code: nat)
      modifies this
      ensures status == Left(old(status), BranchSpec(old(status), c))
      ensures code == CodeOf(BranchSpec(old(status), c))
    {
      hide Projected, BranchArgumentsOk, BranchStateReadable, BranchMove, FindBranch, PutBranch, BranchRecord,
           HasBranch, UPDATABLE_PHASES;
      if !BranchArgumentsOk(c) || status.phase !in UPDATABLE_PHASES {
        return 2;
      }
      if !BranchStateReadable(status) {
        return 3;
      }
      var items := Items(status.branches);
      if IsDeclare(c.action) {
        if HasBranch(items, c.name) {
          return 2;
        }
      } else if !BranchMove(FindBranch(items, c.name), BranchState(c.action)) {
        return 2;
      }
      var record := BranchRecord(BranchState(c.action), c.actor, c.reason, c.now, c.waits);
      status := status.(branches := BranchList(PutBranch(items, c.name, record)));
      KeepsHistory(status);
      ApplyProjection();
      status := status.(historyRows := status.historyRows + 1);
      return 0;
    }

    /** scripts/classify-task-failure.rb. */
    method ClassifyFailure(f: Failure) returns (code: nat)
      modifies this
      ensures status == Left(old(status), ClassifySpec(old(status), f))
      ensures code == CodeOf(ClassifySpec(old(status), f))
    {
      hide Projected, RouteFor, Dependencies, GlobalWaits, OnlyBlocked, Blank, UPDATABLE_PHASES;
      var route := RouteFor(f.classification, f.agent);
      if (f.classification == "permission_authority") != (f.waits != []) || exists w :: w in f.waits && Blank(w) {
        return 2;
      }
      if route.None? {
        return 2;
      }
      if status.phase !in UPDATABLE_PHASES || exists w :: w in status.waitingFor && Blank(w) {
        return 3;
      }
      var target := route.value;
      if target.phase != "blocked" && (status.phase == "blocked" || status.state == "blocked") {
        if !(Dependencies(status.blockedOn) == [] && GlobalWaits(status.waitingFor) == []) {
          return 3;
        }
      }
      if target.phase != "blocked" && OnlyBlocked(status.branches) {
        return 3;
      }
      if f.recorded {
        return 0;
      }
      status := status.(phase := target.phase, state := target.phase, currentAgent := Some(target.agent));
      status := status.(ready := target.phase != "blocked", waitingFor := status.waitingFor + f.waits);
      KeepsHistory(status);
      ApplyProjection();
      status := status.(historyRows := status.historyRows + 1);
      return 0;
    }

    /** scripts/revise-task-plan.rb: everything is checked before anything changes, and a retry of
        the change recorded last is recognised. */
    method RevisePlan(c: PlanChange) returns (code: nat)
      modifies this
      ensures status == Left(old(status), ReviseSpec(old(status), c))
      ensures code == CodeOf(ReviseSpec(old(status), c))
    {
      hide Projected, ChangeArgumentsOk, GatesReadable, BranchStateReadable, RevisionsOk, AlreadyRecorded, HasBranch,
           UPDATABLE_PHASES, WithGates, WithBranches, NextRevision, EffectsOf;
      if !ChangeArgumentsOk(c) {
        return 2;
      }
      if !GatesReadable(status.gates) || ((c.branches != [] || !status.branches.NoBranches?)
                                          && !BranchStateReadable(status)) {
        return 3;
      }
      var problems := PlanRevisions.StoredErrors(status);
      if problems != [] {
        return 3;
      }
      if status.phase == "done" || status.phase == "aborted" {
        return 2;
      }
      if AlreadyRecorded(status, c) {
        return 0;
      }
      if c.branches != [] && status.phase !in UPDATABLE_PHASES {
        return 2;
      }
      if exists g :: g in c.gates && g.name in GateWriter.Stored(status.gates) {
        return 2;
      }
      if exists b :: b in c.branches && HasBranch(Items(status.branches), b.name) {
        return 2;
      }
      DeclareGates(c);
      DeclareBranches(c);
      var number := PlanRevisions.NextId(status.revisions);
      status := status.(revisions := status.revisions + [Revision(number, c.kind, c.actor, c.reason, EffectsOf(c))]);
      status := status.(historyRows := status.historyRows + |c.gates| + |c.branches| + 1);
      return 0;
    }

    method DeclareGates(c: PlanChange)
      modifies this
      ensures status == Gated(old(status), c)
    {
      hide DeclaredGate;
      var stored := GateWriter.Stored(status.gates);
      for i := 0 to |c.gates|
        invariant status == old(status)
        invariant stored == WithGates(GateWriter.Stored(status.gates), c, i)
      {
        stored := stored[c.gates[i].name := DeclaredGate(c.gates[i], c.actor, c.reason, c.now)];
      }
      if c.gates != [] {
        status := status.(gates := GateMap(stored));
      }
    }

    method DeclareBranches(c: PlanChange)
      modifies this
      ensures status == WithBranches(old(status), c, |c.branches|)
      ensures status.revisions == old(status).revisions && status.historyRows == old(status).historyRows
    {
      hide Projected, PutBranch, BranchRecord;
      for i := 0 to |c.branches|
        invariant status == WithBranches(old(status), c, i)
        invariant status.revisions == old(status).revisions && status.historyRows == old(status).historyRows
      {
        var b := c.branches[i];
        var record := WishRecord(c, b);
        status := status.(branches := BranchList(PutBranch(Items(status.branches), b.name, record)));
        ProjectionFrame(status);
        ApplyProjection();
      }
    }
  }

  /** The waits without the branch ones, then one for each blocked branch. */
  method RebuiltWaits(ws: seq<string>, items: seq<NamedBranch>) returns (waits: seq<string>)
    ensures waits == GlobalWaits(ws) + BranchWaits(items)
  {
    hide IsBranchWait, Joined;
    var globals: seq<string> := [];
    for i := 0 to |ws|
      invariant globals + GlobalWaits(ws[i..]) == GlobalWaits(ws)
    {
      assert ws[i..][1..] == ws[i + 1..];
      if !IsBranchWait(ws[i]) {
        globals := globals + [ws[i]];
      }
    }
    assert ws[|ws|..] == [];
    waits := globals;
    for i := 0 to |items|
      invariant waits == globals + BranchWaits(items[..i])
    {
      assert items[..i + 1][..i] == items[..i];
      if IsBlocked(items[i].branch) {
        waits := waits + [WaitText(items[i])];
      }
    }
    assert items[..|items|] == items;
  }

  lemma AfterThePlan(s: Status, o: RoleOutput, t: GateTable, rows: nat)
    ensures var planned := s.(gates := t, historyRows := s.historyRows + rows);
            SyncPhase(planned, o) == SyncPhase(s, o) && SyncedStatus(planned, o, t, 0) == SyncedStatus(s, o, t, rows)
  {
    hide NextAgent, PhaseAfter, Projected, Strip;
  }

  lemma GlobalsOfRebuilt(s: Status)
    requires Declared(s.branches)
    ensures GlobalWaits(GlobalWaits(s.waitingFor) + BranchWaits(s.branches.items)) == GlobalWaits(s.waitingFor)
  {
    hide GlobalWaits, BranchWaits, IsBranchWait;
    GlobalWaitsAreGlobal(s.waitingFor);
    BranchWaitsAreWaits(s.branches.items);
    SplitWaits(GlobalWaits(s.waitingFor), BranchWaits(s.branches.items));
  }

  /** The dependencies that failed, and those that are neither failed nor past the unblocking phase. */
  method DependencyStates(deps: seq<string>, u: Unblock) returns (failed: seq<string>, pending: seq<string>)
    ensures failed != [] <==> exists d :: d in deps && Failed(u, d)
    ensures pending != [] <==> exists d :: d in deps && Pending(u, d)
  {
    hide Failed;
    failed, pending := [], [];
    for i := 0 to |deps|
      invariant failed != [] <==> exists k :: 0 <= k < i && Failed(u, deps[k])
      invariant pending != [] <==> exists k :: 0 <= k < i && Pending(u, deps[k])
    {
      if Failed(u, deps[i]) {
        failed := failed + [deps[i]];
      } else if deps[i] !in u.phases || u.phases[deps[i]] != u.unblockPhase {
        pending := pending + [deps[i]];
      }
    }
  }

  lemma KeepsHistory(s: Status)
    ensures Projected(s).historyRows == s.historyRows && Projected(s).decisionApplied == s.decisionApplied
  {
    ProjectionFrame(s);
  }
}
