/** A plan revision sent again after the task has moved on
    (scripts/revise-task-plan.rb, scripts/plan-revisions.rb). */
module RetryRuns {
  import opened Text
  import opened LedgerIndex
  import opened CompletionGuard
  import opened GateOrdering
  import opened GatePlan
  import opened GatePlanRules
  import opened BranchProjection
  import opened StatusWriters
  import opened PlanRetry
  import opened TaskRuns
  import BranchRules
  import GateWriter
  import RecordAuthorization
  import TaskRules

  // ---- what no writer takes back ----

  /** Every stored gate stays, with the binding it was declared with. */
  ghost predicate GatesStay(before: Gates, later: Gates) {
    forall n :: n in before && before[n].Gate? ==> n in later && later[n].Gate? && later[n].binding == before[n].binding
  }

  ghost predicate BranchesStay(before: BranchTable, later: BranchTable) {
    (forall n :: HasBranch(Items(before), n) ==> HasBranch(Items(later), n))
      && (later.NoBranches? ==> before.NoBranches?)
  }

  /** Where there are branches, a branch writer can build on them. */
  predicate BranchesReadable(s: Status) { s.branches.NoBranches? || BranchStateReadable(s) }

  ghost predicate Lasts(s: Status, t: Status) {
    && GatesReadable(t.gates) && GatesStay(GateWriter.Stored(s.gates), GateWriter.Stored(t.gates))
    && BranchesReadable(t) && BranchesStay(s.branches, t.branches)
  }

  lemma LastsTrans(s: Status, t: Status, u: Status)
    requires Lasts(s, t) && Lasts(t, u)
    ensures Lasts(s, u)
  {
    hide HasBranch, BranchStateReadable, GatesReadable;
  }

  // ---- gates ----

  lemma GateStepGates(w: World, st: Step)
    requires st.GateStep? && GatesReadable(w.status.gates)
    ensures GatesReadable(Next(w, st).status.gates)
    ensures GatesStay(GateWriter.Stored(w.status.gates), GateWriter.Stored(Next(w, st).status.gates))
  {
    hide IndexOf, OrderingOk, GateWriter.RunRecordsOk, GateWriter.ArgumentsOk, GateWriter.GateRefusal;
    var x := GateWriter.Context(w.status.phase, w.status.gates, Read(w.entries, st.readable), st.evidence, st.now);
    if GateWriter.Decide(x, st.c).Written? {
      RecordKeepsBinding(x, st.c);
    }
  }

  lemma RecordKeepsBinding(x: GateWriter.Context, c: GateWriter.Command)
    requires GateWriter.Decide(x, c).Written?
    ensures var gates := GateWriter.Stored(x.table);
            && GateWriter.Decide(x, c).gates.Keys == gates.Keys + {c.gate}
               && GateWriter.Decide(x, c).gates[c.gate].Gate?
            && (forall n :: n in gates && n != c.gate ==> GateWriter.Decide(x, c).gates[n] == gates[n])
            && (c.gate in gates ==> GateWriter.Decide(x, c).gates[c.gate].binding == gates[c.gate].binding)
  {
    hide OrderingOk, GateWriter.RunRecordsOk, GateWriter.ArgumentsOk, GateWriter.PassOrderRefusal,
         GateWriter.PassGrantRefusal, Reaches;
  }

  lemma PlanGates(s: Status, o: RoleOutput)
    requires GatesReadable(s.gates) && PlanFor(s.gates, o).Planned?
    ensures GatesReadable(PlanFor(s.gates, o).table)
    ensures GatesStay(GateWriter.Stored(s.gates), GateWriter.Stored(PlanFor(s.gates, o).table))
  {
    hide PlanOk, Applies, Merged, ChangeRows;
    if o.actor == "pm" && o.plan.Val? && PlanOk(o.plan.value) {
      PlanOnlyAdds(GateWriter.Stored(s.gates), o.plan.value, o.now);
    }
  }

  lemma {:induction false} DeclaringKeeps(gates: Gates, c: PlanChange, n: nat)
    requires n <= |c.gates| && forall g :: g in c.gates ==> g.name !in gates
    ensures forall m :: m in gates ==> m in WithGates(gates, c, n) && WithGates(gates, c, n)[m] == gates[m]
  {
    hide DeclaredGate;
    if n > 0 {
      DeclaringKeeps(gates, c, n - 1);
    }
  }

  // ---- branches and waits ----

  lemma ProjectedReadable(b: Status)
    requires BranchesReadable(b)
    ensures BranchesReadable(Projected(b))
  {
    hide Projected, BranchRecordOk, Blank;
    ProjectedBranches(b);
  }

  lemma SyncReadable(s: Status, index: Option<Index>, o: RoleOutput)
    requires BranchesReadable(s) && SyncSpec(s, index, o).Wrote?
    ensures BranchesReadable(SyncSpec(s, index, o).status)
  {
    hide NextAgent, SyncPhase, MayBeDone, Projected, PlanFor, BranchRecordOk, Blank;
    var planned := PlanFor(s.gates, o);
    ProjectedReadable(TaskRules.BeforeProjection(s, o, planned.table, planned.rows));
  }

  lemma RoutingReadable(s: Status, index: Option<Index>, next: string, phase: string, ds: seq<Decision>)
    requires BranchesReadable(s)
    ensures ForceSpec(s, index, next, phase).Wrote? ==> BranchesReadable(ForceSpec(s, index, next, phase).status)
    ensures DecisionSpec(s, index, ds).Wrote? ==> BranchesReadable(DecisionSpec(s, index, ds).status)
  {
    hide MayBeDone, Projected, Latest, DecisionMap, Strip, BranchRecordOk, Blank;
    ProjectedReadable(s.(phase := phase, state := phase, currentAgent := Some(next),
                         ready := phase != "blocked" && next != "done", historyRows := s.historyRows + 1));
    if Latest(ds).Some? && DecisionMap(Latest(ds).value.kind).Some? {
      var m := DecisionMap(Latest(ds).value.kind).value;
      ProjectedReadable(s.(phase := m.phase, state := m.phase, currentAgent := m.agent, ready := m.ready));
    }
  }

  lemma UnblockReadable(s: Status, u: Unblock)
    requires BranchesReadable(s) && UnblockSpec(s, u).Wrote?
    ensures BranchesReadable(UnblockSpec(s, u).status)
  {
    hide Projected, Dependencies, Failed, Pending, Strip, RoutedPhase, EffectivePhase, BranchRecordOk, Blank;
    var waits := if u.clearWaits then [] else s.waitingFor;
    ProjectedReadable(s.(phase := "escalated", state := "escalated", currentAgent := Some("free-roam"), ready := true,
                         waitingFor := waits));
    var primary := if s.primary.Some? then Strip(s.primary.value) else "";
    ProjectedReadable(s.(phase := RoutedPhase(s, u), state := RoutedPhase(s, u),
                         currentAgent := Some(if primary == "" then "pm" else primary),
                         blockedOn := if Declared(s.branches) then [] else s.blockedOn,
                         ready := u.setReady || s.ready, waitingFor := waits));
  }

  lemma ClassifyReadable(s: Status, f: Failure)
    requires BranchesReadable(s) && ClassifySpec(s, f).Wrote?
    ensures BranchesReadable(ClassifySpec(s, f).status)
  {
    hide Projected, RouteFor, Dependencies, GlobalWaits, OnlyBlocked, UPDATABLE_PHASES, BranchRecordOk, Blank;
    var route := RouteFor(f.classification, f.agent).value;
    ProjectedReadable(s.(phase := route.phase, state := route.phase, currentAgent := Some(route.agent),
                         ready := route.phase != "blocked", waitingFor := s.waitingFor + f.waits));
  }

  lemma BranchStepLasts(s: Status, c: BranchCommand)
    requires BranchSpec(s, c).Wrote?
    ensures BranchesReadable(BranchSpec(s, c).status) && BranchesStay(s.branches, BranchSpec(s, c).status.branches)
    ensures BranchSpec(s, c).status.gates == s.gates
  {
    hide Projected, BranchArgumentsOk, BranchRecordOk, BranchMove, FindBranch, PutBranch, BranchRecord, HasBranch,
         UPDATABLE_PHASES, Blank;
    var items := Items(s.branches);
    var record := BranchRecord(BranchState(c.action), c.actor, c.reason, c.now, c.waits);
    TaskRules.BranchRecordIsOk(c);
    TaskRules.PutBranchOk(items, c.name, record);
    forall n { FindAfterPut(items, c.name, record, n); }
    var b := s.(branches := BranchList(PutBranch(items, c.name, record)));
    ProjectedReadable(b);
    ProjectedBranches(b);
    ProjectionFrame(b);
  }

  lemma ReviseStepLasts(s: Status, c: PlanChange)
    requires ReviseSpec(s, c).Wrote? && GatesReadable(s.gates)
    ensures Lasts(s, ReviseSpec(s, c).status)
  {
    hide ChangeArgumentsOk, StoredReadable, AlreadyRecorded, RevisedStatus, HasBranch, UPDATABLE_PHASES,
         BranchStateReadable;
    StoredAfterRevision(s, c);
    BranchesAfterRevision(s, c);
    RevisedGatesStay(s, c);
  }

  lemma RevisedGatesStay(s: Status, c: PlanChange)
    requires forall g :: g in c.gates ==> g.name !in GateWriter.Stored(s.gates)
    ensures GatesStay(GateWriter.Stored(s.gates), GateWriter.Stored(RevisedStatus(s, c).gates))
    ensures RevisedStatus(s, c).branches.NoBranches? ==> s.branches.NoBranches?
  {
    hide WithGates, WithBranches, NextRevision, EffectsOf;
    var gates := GateWriter.Stored(s.gates);
    DeclaringKeeps(gates, c, |c.gates|);
    var gated := Gated(s, c);
    BranchPartFrame(gated, c, |c.branches|);
    BranchTableStays(gated, c, |c.branches|);
  }

  lemma BranchTableStays(s: Status, c: PlanChange, n: nat)
    requires n <= |c.branches|
    ensures WithBranches(s, c, n).branches.NoBranches? ==> s.branches.NoBranches?
  {
    hide Projected, PutBranch, BranchRecord;
    if n > 0 {
      var t, b := WithBranches(s, c, n - 1), c.branches[n - 1];
      ProjectedBranches(t.(branches := BranchList(PutBranch(Items(t.branches), b.name, WishRecord(c, b)))));
    }
  }

  // ---- runs ----

  lemma OtherStepsReadable(w: World, st: Step)
    requires !st.BranchStep? && !st.ReviseStep? && BranchesReadable(w.status)
    ensures BranchesReadable(Next(w, st).status)
  {
    hide SyncSpec, ForceSpec, DecisionSpec, UnblockSpec, ClassifySpec, BranchRecordOk, Blank, IndexOf,
         GateWriter.Decide, RecordAuthorization.Acceptable, RecordAuthorization.NewEntry, HighNumber;
    var s := w.status;
    match st
    case SyncStep(o, readable) =>
      if SyncSpec(s, Read(w.entries, readable), o).Wrote? { SyncReadable(s, Read(w.entries, readable), o); }
    case ForceStep(next, phase, readable) => RoutingReadable(s, Read(w.entries, readable), next, phase, []);
    case DecisionStep(ds, readable) => RoutingReadable(s, Read(w.entries, readable), "", "", ds);
    case UnblockStep(u) => if UnblockSpec(s, u).Wrote? { UnblockReadable(s, u); }
    case ClassifyStep(f) => if ClassifySpec(s, f).Wrote? { ClassifyReadable(s, f); }
    case _ =>
  }

  lemma OtherStepsGates(w: World, st: Step)
    requires !st.GateStep? && !st.SyncStep? && !st.ReviseStep?
    ensures Next(w, st).status.gates == w.status.gates
  {
    hide Projected, IndexOf, MayBeDone, RecordAuthorization.Acceptable, RecordAuthorization.NewEntry, Latest,
         DecisionMap, Dependencies, RouteFor, Strip, OldPhase, RoutedPhase, EffectivePhase, UPDATABLE_PHASES,
         HighNumber, Failed, Pending, BranchArgumentsOk, BranchStateReadable, BranchMove, PutBranch, HasBranch,
         GlobalWaits, OnlyBlocked;
    forall s ensures Projected(s).gates == s.gates {
      ProjectionFrame(s);
    }
  }

  lemma SyncStepGates(w: World, st: Step)
    requires st.SyncStep? && GatesReadable(w.status.gates)
    ensures GatesReadable(Next(w, st).status.gates)
    ensures GatesStay(GateWriter.Stored(w.status.gates), GateWriter.Stored(Next(w, st).status.gates))
  {
    hide NextAgent, SyncPhase, MayBeDone, Projected, PlanFor, IndexOf;
    var s, index := w.status, Read(w.entries, st.readable);
    if SyncSpec(s, index, st.o).Wrote? {
      var planned := PlanFor(s.gates, st.o);
      PlanGates(s, st.o);
      ProjectionFrame(TaskRules.BeforeProjection(s, st.o, planned.table, planned.rows));
    }
  }

  lemma StepLasts(w: World, st: Step)
    requires GatesReadable(w.status.gates) && BranchesReadable(w.status)
    ensures Lasts(w.status, Next(w, st).status)
  {
    hide Next, BranchesReadable, HasBranch, GatesReadable;
    if st.GateStep? {
      GateStepGates(w, st);
    } else if st.SyncStep? {
      SyncStepGates(w, st);
    } else if !st.ReviseStep? {
      OtherStepsGates(w, st);
    }
    if !st.BranchStep? && !st.ReviseStep? {
      OtherStepsReadable(w, st);
      BranchRules.OtherStepsKeepBranches(w, st);
    } else {
      DeclaringStepLasts(w, st);
    }
  }

  lemma DeclaringStepLasts(w: World, st: Step)
    requires (st.BranchStep? || st.ReviseStep?) && GatesReadable(w.status.gates) && BranchesReadable(w.status)
    ensures Lasts(w.status, Next(w, st).status)
  {
    hide BranchSpec, ReviseSpec, BranchStateReadable, HasBranch;
    if st.BranchStep? {
      if BranchSpec(w.status, st.b).Wrote? { BranchStepLasts(w.status, st.b); }
    } else {
      if ReviseSpec(w.status, st.p).Wrote? { ReviseStepLasts(w.status, st.p); }
    }
  }

  /** Over every run, allowed or not, declared gates keep their binding, declared branches stay, and
      what is stored stays fit to build on. */
  lemma {:induction false} DeclarationsLast(w: World, steps: seq<Step>)
    requires GatesReadable(w.status.gates) && BranchesReadable(w.status)
    ensures Lasts(w.status, Run(w, steps).status)
    decreases |steps|
  {
    hide Next, GatesReadable, BranchesReadable, GatesStay, BranchesStay;
    if steps == [] {
      SelfStays(w.status);
    } else {
      StepLasts(w, steps[0]);
      DeclarationsLast(Next(w, steps[0]), steps[1..]);
      LastsTrans(w.status, Next(w, steps[0]).status, Run(w, steps).status);
    }
  }

  lemma SelfStays(s: Status)
    requires GatesReadable(s.gates)
    ensures GatesStay(GateWriter.Stored(s.gates), GateWriter.Stored(s.gates)) && BranchesStay(s.branches, s.branches)
  {
  }

  // ---- the retry ----

  /** The branches the change declared are still in the state, and waiting for what, it said. */
  predicate StillAsDeclared(s: Status, c: PlanChange) {
    forall b :: b in c.branches ==>
      var stored := FindBranch(Items(s.branches), b.name);
      && stored.Branch? && stored.state == Val(WishState(b))
      && (WishState(b) == "blocked" ==> stored.waitingFor == Val(b.waits))
  }

  lemma RevisionsStayOk(s: Status, t: Status)
    requires RevisionsOk(s) && t.revisions == s.revisions && Lasts(s, t) && GatesReadable(s.gates)
    ensures RevisionsOk(t)
  {
    hide HasBranch, Blank, IsName, KINDS, BranchesReadable, Rising;
    forall r | r in t.revisions ensures RevisionFieldsOk(t, r) {
      assert RevisionFieldsOk(s, r);
    }
  }

  lemma StillRecorded(s: Status, t: Status, c: PlanChange, later: int)
    requires Lasts(s, t) && t.revisions == s.revisions && GatesReadable(s.gates) && AlreadyRecorded(s, c.(now := later))
    ensures AlreadyRecorded(t, c.(now := later)) <==> StillAsDeclared(t, c)
  {
    hide HasBranch, FindBranch, BranchesReadable, WishState;
  }

  lemma RetryOutcome(v: Status, c: PlanChange, later: int)
    requires ChangeArgumentsOk(c) && StoredReadable(v, c)
    requires AlreadyRecorded(v, c.(now := later)) <==> StillAsDeclared(v, c)
    requires forall g :: g in c.gates ==> g.name in GateWriter.Stored(v.gates)
    requires forall b :: b in c.branches ==> HasBranch(Items(v.branches), b.name)
    ensures ReviseSpec(v, c.(now := later)) ==
              if v.phase == "done" || v.phase == "aborted" then Refused(2)
              else if StillAsDeclared(v, c) then Kept
              else Refused(2)
  {
    hide StoredReadable, AlreadyRecorded, RevisedStatus, HasBranch, StillAsDeclared, UPDATABLE_PHASES, BranchRecordOk;
    SameArguments(v, c, later);
    if c.gates == [] && c.branches == [] {
      NothingDeclared(v, c);
    } else if c.gates != [] {
      assert c.gates[0] in c.gates;
    } else {
      assert c.branches[0] in c.branches;
    }
  }

  lemma SameArguments(v: Status, c: PlanChange, later: int)
    ensures ChangeArgumentsOk(c.(now := later)) == ChangeArgumentsOk(c)
            && StoredReadable(v, c.(now := later)) == StoredReadable(v, c)
  {
    hide Blank, IsName, BranchStateReadable, GatesReadable, RevisionsOk;
    assert GateNames(c.(now := later).gates) == GateNames(c.gates);
  }

  lemma NothingDeclared(v: Status, c: PlanChange)
    requires c.branches == []
    ensures StillAsDeclared(v, c)
  {
  }

  /** Whatever the other writers did meanwhile, as long as no further revision was stored: a change that
      landed and is sent again is recognised exactly while the task is open and the branches it
      declared are as it declared them, and otherwise it is refused. It is never stored twice. */
  lemma RetryLaterExactly(w: World, c: PlanChange, steps: seq<Step>, later: int)
    requires ReviseSpec(w.status, c).Wrote?
    requires Run(w.(status := RevisedStatus(w.status, c)), steps).status.revisions ==
             RevisedStatus(w.status, c).revisions
    ensures var v := Run(w.(status := RevisedStatus(w.status, c)), steps).status;
            ReviseSpec(v, c.(now := later)) ==
              if v.phase == "done" || v.phase == "aborted" then Refused(2)
              else if StillAsDeclared(v, c) then Kept
              else Refused(2)
  {
    hide Run, RevisedStatus, AlreadyRecorded, RevisionsOk, BranchStateReadable, HasBranch, FindBranch, StillAsDeclared,
         UPDATABLE_PHASES, ReviseSpec;
    var t := RevisedStatus(w.status, c);
    LandedMeans(w.status, c);
    StoredAfterRevision(w.status, c);
    BranchesAfterRevision(w.status, c);
    RevisionsAfterRevision(w.status, c);
    RecordedAfterRevision(w.status, c, later);
    DeclarationsLast(w.(status := t), steps);
    var v := Run(w.(status := t), steps).status;
    RevisionsStayOk(t, v);
    StillRecorded(t, v, c, later);
    if c.branches != [] {
      HasMeansBranches(t.branches, c.branches[0].name);
    }
    StillReadable(t, v, c);
    RetryOutcome(v, c, later);
  }

  lemma LandedMeans(s: Status, c: PlanChange)
    requires ReviseSpec(s, c).Wrote?
    ensures ChangeArgumentsOk(c)
  {
    hide ChangeArgumentsOk, StoredReadable, AlreadyRecorded, RevisedStatus, HasBranch, UPDATABLE_PHASES;
  }

  lemma HasMeansBranches(t: BranchTable, n: string)
    requires HasBranch(Items(t), n)
    ensures !t.NoBranches?
  {
  }

  lemma StillReadable(t: Status, v: Status, c: PlanChange)
    requires Lasts(t, v) && RevisionsOk(v) && (c.branches != [] ==> !t.branches.NoBranches?)
    ensures StoredReadable(v, c)
  {
    hide BranchStateReadable, RevisionsOk, HasBranch;
  }
}
