/** What every status writer keeps: the gate rules, a valid branch section, and no `done` that the
    completion guard would refuse. */
module TaskRules {
  import opened Text
  import opened AuthorizationLedger
  import opened LedgerIndex
  import opened CompletionGuard
  import opened GateOrdering
  import opened GateRules
  import opened GatePlan
  import opened GatePlanRules
  import opened BranchProjection
  import opened StatusWriters
  import GateWriter
  import GateProgress

  /** A task that says it is done is one the guard lets be done, against this very ledger. */
  ghost predicate DoneSafe(s: Status, es: seq<Entry>) {
    s.phase == "done" || s.state == "done" ==> MayBeDone(s.gates, s.branches, Some(IndexOf(es)))
  }

  ghost predicate TaskSound(s: Status, es: seq<Entry>) {
    && !s.gates.GatesNotAMap?
    && GatesSound(GateWriter.Stored(s.gates), es)
    && BranchSectionOk(s)
    && s.phase == s.state
    && DoneSafe(s, es)
  }

  ghost predicate IndexOrNone(index: Option<Index>, es: seq<Entry>) {
    index.Some? ==> index.value == IndexOf(es)
  }

  lemma GuardHolds(s: Status, es: seq<Entry>, index: Option<Index>)
    requires IndexOrNone(index, es) && MayBeDone(s.gates, s.branches, index)
    ensures MayBeDone(s.gates, s.branches, Some(IndexOf(es)))
  {
    hide Unresolved, IndexOf;
    UnreadableLedgerIsStrictest(s.gates, s.branches, IndexOf(es));
  }

  /** Any status a writer builds and then projects is sound, as long as its records are and it
      does not claim a `done` the guard refuses. */
  lemma ProjectedIsSound(t: Status, es: seq<Entry>)
    requires !t.gates.GatesNotAMap? && GatesSound(GateWriter.Stored(t.gates), es)
    requires RecordsOk(t.branches) && t.phase == t.state
    requires t.phase == "done" ==> MayBeDone(t.gates, t.branches, Some(IndexOf(es)))
    ensures TaskSound(Projected(t), es)
  {
    hide GatesSound, RecordsOk, WaitsCurrent, PhaseFitsBranches, MayBeDone, Projected, IndexOf;
    ProjectionIsValid(t);
    ProjectionFrame(t);
  }

  /** The rules do not read the bookkeeping fields. */
  lemma BookkeepingKeepsTask(t: Status, es: seq<Entry>, rows: nat, decided: string, revisions: seq<Revision>)
    requires TaskSound(t, es)
    ensures TaskSound(t.(historyRows := rows), es)
    ensures TaskSound(t.(decisionApplied := decided, historyRows := rows), es)
    ensures TaskSound(t.(revisions := revisions, historyRows := rows), es)
  {
    hide GatesSound, MayBeDone, RecordsOk, OnlyBlocked, GlobalWaits, BranchWaits, BranchOnly, IndexOf;
  }

  /** An open task may get other sound gates. */
  lemma OtherGatesKeepTask(s: Status, es: seq<Entry>, t: GateTable)
    requires TaskSound(s, es) && s.phase != "done"
    requires !t.GatesNotAMap? && GatesSound(GateWriter.Stored(t), es)
    ensures TaskSound(s.(gates := t), es)
  {
    hide GatesSound, MayBeDone, RecordsOk, OnlyBlocked, GlobalWaits, BranchWaits, BranchOnly, IndexOf;
  }

  // ---- the sync ----

  predicate PmEnumOk(o: RoleOutput) {
    o.actor == "pm" ==> NextAgent(o) in {"dev", "dev-2", "free-roam"}
  }

  lemma SyncTable(s: Status, o: RoleOutput, es: seq<Entry>)
    requires TaskSound(s, es) && PlanFor(s.gates, o).Planned?
    ensures var t := PlanFor(s.gates, o).table;
            && !t.GatesNotAMap?
            && GatesSound(GateWriter.Stored(t), es)
            && NoneReopened(GateWriter.Stored(s.gates), GateWriter.Stored(t), IndexOf(es))
            && (t == s.gates || o.actor == "pm")
  {
    hide GatesSound, MayBeDone, IndexOf, PlanOk, Applies, Merged, GateResolved, BranchSectionOk;
    if o.actor == "pm" && o.plan.Val? && PlanOk(o.plan.value) {
      PlanKeepsRules(GateWriter.Stored(s.gates), o.plan.value, o.now, es);
    }
  }

  lemma PmLeavesDone(s: Status, o: RoleOutput)
    requires o.actor == "pm" && PmEnumOk(o)
    ensures SyncPhase(s, o) != "done"
  {
    hide NextAgent, OldPhase;
  }

  lemma SyncKeepsTask(s: Status, es: seq<Entry>, index: Option<Index>, o: RoleOutput)
    requires TaskSound(s, es) && IndexOrNone(index, es) && PmEnumOk(o)
    requires SyncSpec(s, index, o).Wrote?
    ensures var t := SyncSpec(s, index, o).status;
            TaskSound(t, es) && NoneReopened(GateWriter.Stored(s.gates), GateWriter.Stored(t.gates), IndexOf(es))
  {
    hide GatesSound, NoneReopened, PmEnumOk, MayBeDone, Projected, PlanFor, NextAgent, SyncPhase, IndexOf,
         WaitsCurrent, PhaseFitsBranches;
    var table := PlanFor(s.gates, o).table;
    SyncTable(s, o, es);
    if SyncPhase(s, o) == "done" {
      GuardHolds(s, es, index);
      if o.actor == "pm" {
        PmLeavesDone(s, o);
      }
    }
    var built := BeforeProjection(s, o, table, PlanFor(s.gates, o).rows);
    ProjectedIsSound(built, es);
    ProjectionFrame(built);
  }

  /** The status a sync builds before it projects the branches. */
  ghost function BeforeProjection(s: Status, o: RoleOutput, t: GateTable, rows: nat): (b: Status)
    ensures SyncedStatus(s, o, t, rows) == Projected(b)
    ensures b.gates == t && b.branches == s.branches && b.phase == b.state == SyncPhase(s, o)
  {
    hide NextAgent, SyncPhase, Projected;
    s.(gates := t,
       freeRoamEntries := if o.actor == "free-roam" then s.freeRoamEntries + 1 else s.freeRoamEntries,
       iteration := if NextAgent(o) in WORK_AGENTS then s.iteration + 1 else s.iteration,
       phase := SyncPhase(s, o), state := SyncPhase(s, o), currentAgent := Some(NextAgent(o)),
       ready := SyncPhase(s, o) != "blocked" && NextAgent(o) != "done",
       waitingFor := if Declared(s.branches) then s.waitingFor else [],
       historyRows := s.historyRows + rows + 1, lastSynced := Some(o.artifact))
  }

  // ---- the other writers ----

  lemma ForceKeepsTask(s: Status, es: seq<Entry>, index: Option<Index>, next: string, phase: string)
    requires TaskSound(s, es) && IndexOrNone(index, es) && ForceSpec(s, index, next, phase).Wrote?
    ensures TaskSound(ForceSpec(s, index, next, phase).status, es)
    ensures ForceSpec(s, index, next, phase).status.gates == s.gates
  {
    hide GatesSound, MayBeDone, Projected, IndexOf, WaitsCurrent, PhaseFitsBranches;
    var built := s.(phase := phase, state := phase, currentAgent := Some(next),
                    ready := phase != "blocked" && next != "done", historyRows := s.historyRows + 1);
    if phase == "done" {
      GuardHolds(s, es, index);
    }
    ProjectedIsSound(built, es);
    ProjectionFrame(built);
  }

  lemma DecisionKeepsTask(s: Status, es: seq<Entry>, index: Option<Index>, ds: seq<Decision>)
    requires TaskSound(s, es) && IndexOrNone(index, es) && DecisionSpec(s, index, ds).Wrote?
    ensures TaskSound(DecisionSpec(s, index, ds).status, es)
    ensures DecisionSpec(s, index, ds).status.gates == s.gates
  {
    hide GatesSound, MayBeDone, Projected, IndexOf, WaitsCurrent, PhaseFitsBranches, Latest;
    var d := Latest(ds).value;
    var m := DecisionMap(d.kind).value;
    var built := s.(phase := m.phase, state := m.phase, currentAgent := m.agent, ready := m.ready);
    if m.phase == "done" {
      GuardHolds(s, es, index);
    }
    ProjectedIsSound(built, es);
    ProjectionFrame(built);
    BookkeepingKeepsTask(Projected(built), es, s.historyRows + 1, d.decidedAt, s.revisions);
    BookkeepingKeepsTask(s, es, s.historyRows + 1, d.decidedAt, s.revisions);
  }

  lemma UnblockKeepsTask(s: Status, es: seq<Entry>, u: Unblock)
    requires TaskSound(s, es) && UnblockSpec(s, u).Wrote?
    requires u.queuePhase != "done"
    ensures TaskSound(UnblockSpec(s, u).status, es)
    ensures UnblockSpec(s, u).status.gates == s.gates
  {
    hide GatesSound, MayBeDone, Projected, IndexOf, WaitsCurrent, PhaseFitsBranches, Dependencies, Strip;
    var waits := if u.clearWaits then [] else s.waitingFor;
    var escalated := s.(phase := "escalated", state := "escalated", currentAgent := Some("free-roam"), ready := true,
                        waitingFor := waits);
    ProjectedIsSound(escalated, es);
    ProjectionFrame(escalated);
    BookkeepingKeepsTask(Projected(escalated), es, s.historyRows + 1, s.decisionApplied, s.revisions);
    var primary := if s.primary.Some? then Strip(s.primary.value) else "";
    var phase := RoutedPhase(s, u);
    var routed := s.(phase := phase, state := phase, currentAgent := Some(if primary == "" then "pm" else primary),
                     blockedOn := if Declared(s.branches) then [] else s.blockedOn,
                     ready := u.setReady || s.ready, waitingFor := waits);
    ProjectedIsSound(routed, es);
    ProjectionFrame(routed);
    BookkeepingKeepsTask(Projected(routed), es, s.historyRows + 1, s.decisionApplied, s.revisions);
  }

  lemma ValidationFailedKeepsTask(s: Status, es: seq<Entry>)
    requires TaskSound(s, es)
    ensures TaskSound(ValidationFailedSpec(s).status, es)
    ensures ValidationFailedSpec(s).status.gates == s.gates
  {
    hide GatesSound, MayBeDone, IndexOf, RecordsOk, OnlyBlocked, GlobalWaits;
  }

  lemma {:induction false} PutBranchOk(items: seq<NamedBranch>, name: string, b: Branch)
    requires BranchRecordOk(NamedBranch(name, b))
    requires forall i :: i in items ==> BranchRecordOk(i)
    ensures PutBranch(items, name, b) != []
    ensures forall i :: i in PutBranch(items, name, b) ==> BranchRecordOk(i)
  {
    hide BranchRecordOk;
    if items != [] && items[0].name != name {
      PutBranchOk(items[1..], name, b);
    }
  }

  lemma BranchKeepsTask(s: Status, es: seq<Entry>, c: BranchCommand)
    requires TaskSound(s, es) && BranchSpec(s, c).Wrote?
    ensures TaskSound(BranchSpec(s, c).status, es)
    ensures BranchSpec(s, c).status.gates == s.gates
  {
    hide GatesSound, MayBeDone, Projected, IndexOf, WaitsCurrent, PhaseFitsBranches, FindBranch, BranchMove, HasBranch,
         PutBranch, BranchRecordOk;
    var items, state := Items(s.branches), BranchState(c.action);
    var record := BranchRecord(state, c.actor, c.reason, c.now, c.waits);
    BranchRecordIsOk(c);
    PutBranchOk(items, c.name, record);
    var built := s.(branches := BranchList(PutBranch(items, c.name, record)));
    ProjectedIsSound(built, es);
    ProjectionFrame(built);
    BookkeepingKeepsTask(Projected(built), es, s.historyRows + 1, s.decisionApplied, s.revisions);
  }

  lemma BranchRecordIsOk(c: BranchCommand)
    requires BranchArgumentsOk(c)
    ensures BranchRecordOk(NamedBranch(c.name, BranchRecord(BranchState(c.action), c.actor, c.reason, c.now, c.waits)))
  {
    hide Blank, IsName;
  }

  lemma RoutesAreNotDone(classification: string, agent: Option<string>)
    ensures RouteFor(classification, agent).Some? ==> RouteFor(classification, agent).value.phase != "done"
  {
  }

  lemma ClassifyKeepsTask(s: Status, es: seq<Entry>, f: Failure)
    requires TaskSound(s, es) && ClassifySpec(s, f).Wrote?
    ensures TaskSound(ClassifySpec(s, f).status, es)
    ensures ClassifySpec(s, f).status.gates == s.gates
  {
    hide GatesSound, MayBeDone, Projected, IndexOf, WaitsCurrent, PhaseFitsBranches, RouteFor, Dependencies,
         GlobalWaits, OnlyBlocked;
    RoutesAreNotDone(f.classification, f.agent);
    var route := RouteFor(f.classification, f.agent).value;
    var built := s.(phase := route.phase, state := route.phase, currentAgent := Some(route.agent),
                    ready := route.phase != "blocked", waitingFor := s.waitingFor + f.waits);
    ProjectedIsSound(built, es);
    ProjectionFrame(built);
    BookkeepingKeepsTask(Projected(built), es, s.historyRows + 1, s.decisionApplied, s.revisions);
  }

  // ---- the plan revision ----

  lemma DeclaredGateSound(g: GateWish, c: PlanChange, ix: Index)
    requires ChangeArgumentsOk(c) && g in c.gates
    ensures GateSound(g.name, DeclaredGate(g, c.actor, c.reason, c.now), ix)
  {
    hide IdNumber, ValidGrant, RanOk;
  }

  /** A new pending gate that waits on nothing disturbs nothing. */
  lemma NewPendingGateKeepsRules(had: Gates, n: string, g: Gate, es: seq<Entry>)
    requires GatesSound(had, es) && n !in had
    requires GateSound(n, g, IndexOf(es)) && g.status == Val("pending") && g.after == Absent
    ensures GatesSound(had[n := g], es)
  {
    hide Accepted, OrderingOk, GateSound, GateResolved, IndexOf;
    SoundIsGate(n, g, IndexOf(es));
    PlainDeclareKeepsOrdering(had, n, g);
    var now := had[n := g];
    forall m | m in now && now[m].Gate? && now[m].status == Val("pass") ensures WaitsResolved(now, m, IndexOf(es)) {
      assert WaitsResolved(had, m, IndexOf(es));
    }
  }

  lemma SoundIsGate(n: string, g: Gate, ix: Index)
    requires GateSound(n, g, ix)
    ensures g.Gate?
  {
  }

  lemma {:induction false} DeclaredGatesKeepRules(gates: Gates, c: PlanChange, n: nat, es: seq<Entry>)
    requires GatesSound(gates, es) && ChangeArgumentsOk(c) && n <= |c.gates|
    requires forall g :: g in c.gates ==> g.name !in gates
    ensures GatesSound(WithGates(gates, c, n), es)
    ensures forall i :: n <= i < |c.gates| ==> c.gates[i].name !in WithGates(gates, c, n)
    ensures forall m :: m in gates ==> m in WithGates(gates, c, n) && WithGates(gates, c, n)[m] == gates[m]
  {
    hide GatesSound, GateSound, IndexOf, ChangeArgumentsOk, DeclaredGate;
    if n > 0 {
      DeclaredGatesKeepRules(gates, c, n - 1, es);
      var had, wish := WithGates(gates, c, n - 1), c.gates[n - 1];
      var g := DeclaredGate(wish, c.actor, c.reason, c.now);
      NamesAreDistinct(c);
      DeclaredGateSound(wish, c, IndexOf(es));
      DeclaredIsPending(wish, c);
      NewPendingGateKeepsRules(had, wish.name, g, es);
    }
  }

  lemma NamesAreDistinct(c: PlanChange)
    requires ChangeArgumentsOk(c)
    ensures forall i, j :: 0 <= i < j < |c.gates| ==> c.gates[i].name != c.gates[j].name
  {
    hide Blank, IsName;
    var names := GateNames(c.gates);
    assert forall i :: 0 <= i < |names| ==> names[i] == c.gates[i].name;
  }

  lemma DeclaredIsPending(g: GateWish, c: PlanChange)
    ensures DeclaredGate(g, c.actor, c.reason, c.now).Gate?
    ensures DeclaredGate(g, c.actor, c.reason, c.now).status == Val("pending")
    ensures DeclaredGate(g, c.actor, c.reason, c.now).after == Absent
  {
  }

  lemma PlainDeclareKeepsOrdering(gates: Gates, n: string, g: Gate)
    requires OrderingOk(gates) && n !in gates && g.Gate? && g.after == Absent
    ensures OrderingOk(gates[n := g])
  {
    hide OrderingOk;
    DeclareKeepsOrdering(gates, n, g);
  }

  lemma {:induction false} WithBranchesSound(s: Status, c: PlanChange, n: nat, es: seq<Entry>)
    requires TaskSound(s, es) && ChangeArgumentsOk(c) && n <= |c.branches|
    requires s.phase != "done"
    ensures TaskSound(WithBranches(s, c, n), es) && WithBranches(s, c, n).phase != "done"
    ensures WithBranches(s, c, n).gates == s.gates
  {
    hide GatesSound, MayBeDone, Projected, IndexOf, WaitsCurrent, PhaseFitsBranches, PutBranch, BranchRecordOk,
         ChangeArgumentsOk, BranchRecord;
    if n > 0 {
      WithBranchesSound(s, c, n - 1, es);
      var t, b := WithBranches(s, c, n - 1), c.branches[n - 1];
      var record := WishRecord(c, b);
      WishRecordIsOk(b, c);
      PutBranchOk(Items(t.branches), b.name, record);
      var built := t.(branches := BranchList(PutBranch(Items(t.branches), b.name, record)));
      ProjectedIsSound(built, es);
      ProjectionFrame(built);
    }
  }

  lemma WishRecordIsOk(b: BranchWish, c: PlanChange)
    requires ChangeArgumentsOk(c) && b in c.branches
    ensures BranchRecordOk(NamedBranch(b.name, WishRecord(c, b)))
  {
    hide Blank, IsName;
  }

  lemma ReviseKeepsTask(s: Status, es: seq<Entry>, c: PlanChange)
    requires TaskSound(s, es)
    ensures ReviseSpec(s, c).Wrote? ==>
              && TaskSound(ReviseSpec(s, c).status, es)
              && NoneReopened(GateWriter.Stored(s.gates), GateWriter.Stored(ReviseSpec(s, c).status.gates), IndexOf(es))
  {
    hide GatesSound, MayBeDone, IndexOf, WaitsCurrent, PhaseFitsBranches, ChangeArgumentsOk, WithGates, WithBranches,
         GateResolved, StoredReadable, AlreadyRecorded, NextRevision, RecordsOk, HasBranch;
    if ReviseSpec(s, c).Wrote? {
      var gates := GateWriter.Stored(s.gates);
      DeclaredGatesKeepRules(gates, c, |c.gates|, es);
      var gated := Gated(s, c);
      OtherGatesKeepTask(s, es, gated.gates);
      WithBranchesSound(gated, c, |c.branches|, es);
      BookkeepingKeepsTask(WithBranches(gated, c, |c.branches|), es, s.historyRows + |c.gates| + |c.branches| + 1,
                           s.decisionApplied,
                           RevisedStatus(s, c).revisions);
    }
  }

  // ---- the ledger ----

  lemma LedgerGrowthKeepsTask(s: Status, es: seq<Entry>, ext: seq<Entry>)
    requires TaskSound(s, es) && Accepted(es + ext)
    ensures TaskSound(s, es + ext)
    ensures forall n :: n in GateWriter.Stored(s.gates) ==>
              GateResolved(GateWriter.Stored(s.gates)[n], Some(IndexOf(es + ext))) ==
                GateResolved(GateWriter.Stored(s.gates)[n], Some(IndexOf(es)))
  {
    hide GatesSound, IndexOf, BranchSectionOk, GateResolved, Unresolved, Accepted;
    GateProgress.LedgerGrowthKeepsRules(GateWriter.Stored(s.gates), es, ext);
    VerdictMeaning(s.gates, s.branches, Some(IndexOf(es)));
    VerdictMeaning(s.gates, s.branches, Some(IndexOf(es + ext)));
  }
}
