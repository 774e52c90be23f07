/** Whole runs of the governed writers over one task: every interleaving is a list of steps, since
    each writer does its work under the task lock. */
module TaskRuns {
  import opened Text
  import opened AuthorizationLedger
  import opened LedgerIndex
  import opened CompletionGuard
  import opened GateOrdering
  import opened GateRules
  import opened GatePlan
  import opened GatePlanRules
  import opened BranchProjection
  import opened StatusWriters
  import opened TaskRules
  import GateWriter
  import RecordAuthorization

  datatype World = World(status: Status, entries: seq<Entry>)

  /** `readable` says whether the step managed to read authorization.yaml. */
  datatype Step =
    | GateStep(c: GateWriter.Command, evidence: set<string>, now: int, readable: bool)
    | RecordStep(r: RecordAuthorization.Request, now: int)
    | SyncStep(o: RoleOutput, readable: bool)
    | ForceStep(next: string, phase: string, readable: bool)
    | DecisionStep(ds: seq<Decision>, readable: bool)
    | UnblockStep(u: Unblock)
    | ValidationFailedStep
    | BranchStep(b: BranchCommand)
    | ClassifyStep(f: Failure)
    | ReviseStep(p: PlanChange)

  function Read(es: seq<Entry>, readable: bool): Option<Index> {
    if readable then Some(IndexOf(es)) else None
  }

  function Landed(s: Status, o: Outcome): Status {
    if o.Wrote? then o.status else s
  }

  ghost function Next(w: World, st: Step): World {
    var s, es := w.status, w.entries;
    match st
    case GateStep(c, evidence, now, readable) =>
      var d := GateWriter.Decide(GateWriter.Context(s.phase, s.gates, Read(es, readable), evidence, now), c);
      if d.Written? then w.(status := s.(gates := GateMap(d.gates), historyRows := s.historyRows + 1)) else w
    case RecordStep(r, now) =>
      if RecordAuthorization.Acceptable(es, s.phase, now, r)
      then w.(entries := es + [RecordAuthorization.NewEntry(r, HighNumber(es) + 1, now)]) else w
    case SyncStep(o, readable) => w.(status := Landed(s, SyncSpec(s, Read(es, readable), o)))
    case ForceStep(next, phase, readable) => w.(status := Landed(s, ForceSpec(s, Read(es, readable), next, phase)))
    case DecisionStep(ds, readable) => w.(status := Landed(s, DecisionSpec(s, Read(es, readable), ds)))
    case UnblockStep(u) => w.(status := Landed(s, UnblockSpec(s, u)))
    case ValidationFailedStep => w.(status := Landed(s, ValidationFailedSpec(s)))
    case BranchStep(b) => w.(status := Landed(s, BranchSpec(s, b)))
    case ClassifyStep(f) => w.(status := Landed(s, ClassifySpec(s, f)))
    case ReviseStep(p) => w.(status := Landed(s, ReviseSpec(s, p)))
  }

  /** What is asked of the callers: a project manager names one of the agents its output schema
      lists, and the configured reviewer queue is a phase other than done. */
  predicate StepAllowed(st: Step) {
    match st
    case SyncStep(o, _) => PmEnumOk(o)
    case UnblockStep(u) => u.queuePhase != "done"
    case _ => true
  }

  ghost predicate Sound(w: World) {
    TaskSound(w.status, w.entries)
  }

  /** Every gate resolved in `v` is a gate of `w`, still resolved, each judged by its own ledger. */
  ghost predicate StillResolved(v: World, w: World) {
    var before, later := GateWriter.Stored(v.status.gates), GateWriter.Stored(w.status.gates);
    forall n :: n in before && GateResolved(before[n], Some(IndexOf(v.entries))) ==>
      n in later && GateResolved(later[n], Some(IndexOf(w.entries)))
  }

  lemma StillResolvedTrans(u: World, v: World, w: World)
    requires StillResolved(u, v) && StillResolved(v, w)
    ensures StillResolved(u, w)
  {
    hide GateResolved, IndexOf;
  }

  lemma NotReopenedIsStillResolved(w: World, s: Status)
    requires NoneReopened(GateWriter.Stored(w.status.gates), GateWriter.Stored(s.gates), IndexOf(w.entries))
    ensures StillResolved(w, w.(status := s))
  {
    hide GateResolved, IndexOf;
  }

  // ---- one step ----

  lemma GateStepKeeps(w: World, st: Step)
    requires st.GateStep? && Sound(w)
    ensures Sound(Next(w, st)) && StillResolved(w, Next(w, st))
  {
    hide GatesSound, IndexOf, GateResolved, MayBeDone, BranchSectionOk;
    var x := GateWriter.Context(w.status.phase, w.status.gates, Read(w.entries, st.readable), st.evidence, st.now);
    var d := GateWriter.Decide(x, st.c);
    if d.Written? {
      WriterKeepsRules(x, st.c, w.entries);
      WrittenMeansOpen(x, st.c);
      OtherGatesKeepTask(w.status, w.entries, GateMap(d.gates));
      BookkeepingKeepsTask(w.status.(gates := GateMap(d.gates)), w.entries, w.status.historyRows + 1, "", []);
    }
  }

  lemma WrittenMeansOpen(x: GateWriter.Context, c: GateWriter.Command)
    requires GateWriter.Decide(x, c).Written?
    ensures x.phase != "done"
  {
    hide OrderingOk, GateWriter.RunRecordsOk, GateWriter.GateRefusal, GateWriter.ArgumentsOk;
    assert Strip("done") == "done" by {
      assert !IsSpace("done"[0]) && !IsSpace("done"[3]);
    }
  }

  lemma RecordStepKeeps(w: World, st: Step)
    requires st.RecordStep? && Sound(w)
    ensures Sound(Next(w, st)) && StillResolved(w, Next(w, st))
  {
    hide IndexOf, GateResolved, GatesSound, BranchSectionOk, DoneSafe, RecordAuthorization.NewEntry, IdNumber,
         FieldsOk, GrantBefore, RevokedBefore, Accepted;
    var es := w.entries;
    if RecordAuthorization.Acceptable(es, w.status.phase, st.now, st.r) {
      var e := RecordAuthorization.NewEntry(st.r, HighNumber(es) + 1, st.now);
      RecordAuthorization.NewEntryFields(st.r, HighNumber(es) + 1, st.now);
      RecordAuthorization.AppendAccepted(es, e);
      LedgerGrowthKeepsTask(w.status, es, [e]);
    }
  }

  lemma SyncStepKeeps(w: World, st: Step)
    requires st.SyncStep? && Sound(w) && StepAllowed(st)
    ensures Sound(Next(w, st)) && StillResolved(w, Next(w, st))
  {
    hide TaskSound, IndexOf, GateResolved, SyncSpec, PmEnumOk;
    var s, es, index := w.status, w.entries, Read(w.entries, st.readable);
    if SyncSpec(s, index, st.o).Wrote? {
      SyncKeepsTask(s, es, index, st.o);
      NotReopenedIsStillResolved(w, SyncSpec(s, index, st.o).status);
    }
  }

  lemma OtherStepKeeps(w: World, st: Step)
    requires !st.GateStep? && !st.RecordStep? && !st.SyncStep? && Sound(w) && StepAllowed(st)
    ensures Sound(Next(w, st)) && StillResolved(w, Next(w, st))
  {
    hide TaskSound, IndexOf, GateResolved, ForceSpec, DecisionSpec, UnblockSpec, ValidationFailedSpec, BranchSpec,
         ClassifySpec, ReviseSpec;
    var s, es := w.status, w.entries;
    match st
    case ForceStep(next, phase, readable) =>
      if ForceSpec(s, Read(es, readable), next, phase).Wrote? {
        ForceKeepsTask(s, es, Read(es, readable), next, phase);
      }
    case DecisionStep(ds, readable) =>
      if DecisionSpec(s, Read(es, readable), ds).Wrote? { DecisionKeepsTask(s, es, Read(es, readable), ds); }
    case UnblockStep(u) =>
      if UnblockSpec(s, u).Wrote? { UnblockKeepsTask(s, es, u); }
    case ValidationFailedStep =>
      ValidationFailedKeepsTask(s, es);
    case BranchStep(b) =>
      if BranchSpec(s, b).Wrote? { BranchKeepsTask(s, es, b); }
    case ClassifyStep(f) =>
      if ClassifySpec(s, f).Wrote? { ClassifyKeepsTask(s, es, f); }
    case ReviseStep(p) =>
      ReviseKeepsTask(s, es, p);
      if ReviseSpec(s, p).Wrote? {
        NotReopenedIsStillResolved(w, ReviseSpec(s, p).status);
      }
  }

  // ---- runs ----

  ghost function Run(w: World, steps: seq<Step>): World
    decreases |steps|
  {
    if steps == [] then w else Run(Next(w, steps[0]), steps[1..])
  }

  /** A task as it is opened: nothing declared, nothing granted. */
  predicate Fresh(w: World) {
    && w.status.phase in {"pending", "assigned"} && w.status.state == w.status.phase
    && w.status.gates.NoGates? && w.status.branches.NoBranches?
    && w.entries == []
  }

  lemma FreshIsSound(w: World)
    requires Fresh(w)
    ensures Sound(w)
  {
    NoGatesSound(w.status);
  }

  /** Over every run of allowed steps from a sound task: the gates stay well ordered, every pass keeps
      its waits resolved, no resolved gate reopens, the branch section stays valid, and a task
      that says done is one the guard allows, later revokes included. */
  lemma {:induction false} RunsStaySound(w: World, steps: seq<Step>)
    requires Sound(w) && forall i :: 0 <= i < |steps| ==> StepAllowed(steps[i])
    ensures Sound(Run(w, steps)) && StillResolved(w, Run(w, steps))
    decreases |steps|
  {
    hide Sound, StillResolved, Next, StepAllowed;
    StillResolvedSelf(w);
    if steps != [] {
      var st := steps[0];
      if st.GateStep? {
        GateStepKeeps(w, st);
      } else if st.RecordStep? {
        RecordStepKeeps(w, st);
      } else if st.SyncStep? {
        SyncStepKeeps(w, st);
      } else {
        OtherStepKeeps(w, st);
      }
      RunsStaySound(Next(w, st), steps[1..]);
      StillResolvedTrans(w, Next(w, st), Run(w, steps));
    }
  }

  lemma StillResolvedSelf(w: World)
    ensures StillResolved(w, w)
  {
    hide GateResolved, IndexOf;
  }

  /** Done-safety, ordered passes and valid branches, spelled out for every state that governed
      writers reach from a freshly opened task. */
  lemma ReachableTaskIsSafe(w: World, steps: seq<Step>)
    requires Fresh(w) && forall i :: 0 <= i < |steps| ==> StepAllowed(steps[i])
    ensures var v := Run(w, steps);
            var gates, ix := GateWriter.Stored(v.status.gates), IndexOf(v.entries);
            && (v.status.phase == "done" || v.status.state == "done" ==>
                  (forall n :: n in gates ==> GateResolved(gates[n], Some(ix)))
                  && (forall b :: b in Items(v.status.branches) ==> BranchResolved(b)))
            && OrderingOk(gates)
            && (forall n, d ::
                  n in gates && gates[n].Gate? && gates[n].status == Val("pass") && d in After(gates, n) ==>
                  d in gates && GateResolved(gates[d], Some(ix)))
            && BranchSectionOk(v.status)
            && Accepted(v.entries)
  {
    hide GateResolved, IndexOf, OrderingOk, Accepted, BranchSectionOk, BranchResolved, Run, Unresolved;
    FreshIsSound(w);
    RunsStaySound(w, steps);
    var v := Run(w, steps);
    VerdictMeaning(v.status.gates, v.status.branches, Some(IndexOf(v.entries)));
    var gates, ix := GateWriter.Stored(v.status.gates), IndexOf(v.entries);
    forall n, d | n in gates && gates[n].Gate? && gates[n].status == Val("pass") && d in After(gates, n)
      ensures d in gates && GateResolved(gates[d], Some(ix))
    {
      assert WaitsResolved(gates, n, ix);
    }
  }

  // ---- where safety ends ----

  /** The one way a sync leaves a false `done`: a project manager's output on a task already done,
      naming an agent its table has no phase for, with a plan that declares a gate not stored yet. */
  predicate ReopensDone(s: Status, o: RoleOutput) {
    && o.actor == "pm" && !PmEnumOk(o)
    && Strip(s.phase) == "done"
    && o.plan.Val?
    && exists p :: p in o.plan.value && NameOf(p) !in GateWriter.Stored(s.gates)
  }

  lemma KeptPhase(s: Status, o: RoleOutput)
    requires o.actor == "pm" && !PmEnumOk(o)
    ensures SyncPhase(s, o) == OldPhase(s)
  {
    hide NextAgent, OldPhase;
  }

  lemma PlanOnResolvedGates(gates: Gates, plan: Plan, at: int, ix: Index)
    requires PlanOk(plan) && Applies(gates, plan, at)
    requires forall n :: n in gates ==> GateResolved(gates[n], Some(ix))
    ensures (exists p :: p in plan && NameOf(p) !in gates) <==> Merged(gates, plan, at) != gates
    ensures Merged(gates, plan, at) != gates ==>
              exists n :: n in Merged(gates, plan, at) && !GateResolved(Merged(gates, plan, at)[n], Some(ix))
  {
    hide ItemOk, ItemConflict, Merged, OrderingOk, IndexOf, GateResolved, OnlyAdded;
    var r := Merged(gates, plan, at);
    PlanOnlyAdds(gates, plan, at);
    forall n | n in gates ensures r[n] == gates[n] {
      ResolvedIsNotPending(gates[n], r[n], ix);
    }
    if p :| p in plan && NameOf(p) !in gates {
      ListedName(plan, p);
      PendingIsUnresolved(r[NameOf(p)], ix);
      assert NameOf(p) in r;
    } else {
      assert forall m :: m in ListedNames(plan) ==> m in gates;
      assert r == gates;
    }
  }

  lemma ListedName(plan: Plan, p: PlanItem)
    requires PlanOk(plan) && p in plan
    ensures NameOf(p) in ListedNames(plan)
  {
    hide OrderingOk, NamesDistinct, ListedGraph;
    ItemNamed(p);
  }

  lemma ResolvedIsNotPending(g: Gate, g': Gate, ix: Index)
    requires GateResolved(g, Some(ix)) && OnlyAdded(g, g')
    ensures g' == g
  {
  }

  lemma PendingIsUnresolved(g: Gate, ix: Index)
    ensures g.Gate? && g.status == Val("pending") ==> !GateResolved(g, Some(ix))
  {
  }

  /** Exactly when a sync keeps done-safety: unless it reopens a done task's gates. */
  lemma SyncIsDoneSafeExactly(s: Status, es: seq<Entry>, index: Option<Index>, o: RoleOutput)
    requires TaskSound(s, es) && IndexOrNone(index, es) && SyncSpec(s, index, o).Wrote?
    ensures DoneSafe(SyncSpec(s, index, o).status, es) <==> !ReopensDone(s, o)
  {
    hide GatesSound, BranchSectionOk, MayBeDone, Projected, NextAgent, SyncPhase, IndexOf, PmEnumOk, ItemOk,
         NamesDistinct, ListedGraph, OrderingOk, Applies, Merged, OldPhase, GateResolved, ChangeRows;
    var planned := PlanFor(s.gates, o);
    var b := BeforeProjection(s, o, planned.table, planned.rows);
    ProjectionFrame(b);
    var gates := GateWriter.Stored(s.gates);
    if SyncPhase(s, o) == "done" {
      GuardHolds(s, es, index);
      if o.actor == "pm" {
        if PmEnumOk(o) {
          PmLeavesDone(s, o);
        } else {
          KeptPhase(s, o);
          DonePhase(s);
          if o.plan.Val? && PlanOk(o.plan.value) {
            AllGatesResolved(s, es);
            assert Applies(gates, o.plan.value, o.now);
            PlanOnResolvedGates(gates, o.plan.value, o.now, IndexOf(es));
            GateBlocksDone(planned.table, s.branches, es);
            var t := SyncSpec(s, index, o).status;
            assert t.phase == "done" && t.gates == planned.table;
            if ReopensDone(s, o) {
              assert GateWriter.Stored(t.gates) == Merged(gates, o.plan.value, o.now);
              assert !DoneSafe(t, es);
            } else {
              assert DoneSafe(t, es);
            }
          }
        }
      }
    } else if ReopensDone(s, o) {
      KeptPhase(s, o);
      DonePhase(s);
    }
  }

  lemma DonePhase(s: Status)
    ensures OldPhase(s) == "done" <==> Strip(s.phase) == "done"
  {
    hide Strip;
  }

  lemma AllGatesResolved(s: Status, es: seq<Entry>)
    requires MayBeDone(s.gates, s.branches, Some(IndexOf(es)))
    ensures forall n :: n in GateWriter.Stored(s.gates) ==>
              GateResolved(GateWriter.Stored(s.gates)[n], Some(IndexOf(es)))
  {
    hide Unresolved, IndexOf, GateResolved;
    VerdictMeaning(s.gates, s.branches, Some(IndexOf(es)));
  }

  lemma GateBlocksDone(t: GateTable, branches: BranchTable, es: seq<Entry>)
    ensures (exists n :: n in GateWriter.Stored(t) && !GateResolved(GateWriter.Stored(t)[n], Some(IndexOf(es)))) ==>
              !MayBeDone(t, branches, Some(IndexOf(es)))
  {
    hide Unresolved, IndexOf, GateResolved;
    VerdictMeaning(t, branches, Some(IndexOf(es)));
  }

  /** The unblocker does not ask the guard. It leaves a false `done` exactly when it routes to a
      reviewer whose configured queue phase is done while the guard would refuse. */
  lemma UnblockIsDoneSafeExactly(s: Status, es: seq<Entry>, u: Unblock)
    requires TaskSound(s, es) && UnblockSpec(s, u).Wrote?
    ensures DoneSafe(UnblockSpec(s, u).status, es) <==>
              !(&& u.route && u.queuePhase == "done"
                && s.primary.Some? && Strip(s.primary.value) == "reviewer"
                && (forall d :: d in Dependencies(s.blockedOn) ==> !Failed(u, d))
                && !MayBeDone(s.gates, s.branches, Some(IndexOf(es))))
  {
    hide GatesSound, BranchSectionOk, MayBeDone, Projected, IndexOf, Dependencies, Strip;
    var waits := if u.clearWaits then [] else s.waitingFor;
    var escalated := s.(phase := "escalated", state := "escalated", currentAgent := Some("free-roam"), ready := true,
                        waitingFor := waits);
    ProjectionFrame(escalated);
    var primary := if s.primary.Some? then Strip(s.primary.value) else "";
    var phase := RoutedPhase(s, u);
    var routed := s.(phase := phase, state := phase, currentAgent := Some(if primary == "" then "pm" else primary),
                     blockedOn := if Declared(s.branches) then [] else s.blockedOn,
                     ready := u.setReady || s.ready, waitingFor := waits);
    ProjectionFrame(routed);
  }

  /** Both ways out of safety are real: a done task without gates, and a blocked one. */
  lemma PmCanReopenDone() returns (s: Status, o: RoleOutput)
    ensures TaskSound(s, []) && SyncSpec(s, Some(IndexOf([])), o).Wrote? && ReopensDone(s, o)
    ensures !DoneSafe(SyncSpec(s, Some(IndexOf([])), o).status, [])
  {
    hide ItemOk, NamesDistinct, ListedGraph, OrderingOk, Merged, TaskSound, DoneSafe, Projected, IndexOf, Applies;
    s := Status("done", "done", Some("done"), false, [], [], None, NoGates, NoBranches, [], 0, 0, 0, None, "", 0);
    var item := PlanItem(Val("smoke"), Val("r"), Absent, Absent, Absent, false);
    o := RoleOutput("pm", "reviewer", "", false, Val([item]), Synced("pm-output.yaml", "d"), "in_review", 0);
    StripOf("done");
    StripOf("reviewer");
    NoGatesSound(s);
    OneItemPlan(item);
    assert item in o.plan.value && NameOf(item) == "smoke";
    SyncIsDoneSafeExactly(s, [], Some(IndexOf([])), o);
  }

  lemma NoGatesSound(s: Status)
    requires s.gates.NoGates? && s.branches.NoBranches? && s.phase == s.state
    ensures TaskSound(s, [])
  {
  }

  lemma OneItemPlan(item: PlanItem)
    requires item == PlanItem(Val("smoke"), Val("r"), Absent, Absent, Absent, false)
    ensures PlanOk([item]) && Applies(map[], [item], 0)
  {
    assert !IsSpace("r"[0]);
    assert ItemOk(item);
    assert forall p :: p in [item] ==> p == item;
    assert ListedUpTo([item], 0) == map[];
    assert Restrict(Wanted(item), ListedNames([item])) == [];
    assert ListedGraph([item]) == map["smoke" := BARE];
    assert MergedUpTo(map[], [item], 0, 0) == map[];
    var merged := Merged(map[], [item], 0);
    assert merged.Keys == {"smoke"};
    assert After(merged, "smoke") == [];
  }

  const PENDING_GATE := Gate(Val("pending"), Val("pm"), Val("r"), Val(Instant(0)), [], Absent, Absent, Absent, Absent,
                             Absent, Absent)

  lemma OnePendingGate()
    ensures GatesSound(map["smoke" := PENDING_GATE], [])
    ensures !GateResolved(PENDING_GATE, Some(IndexOf([])))
  {
    var gates: Gates := map["smoke" := PENDING_GATE];
    assert After(gates, "smoke") == [];
    assert OrderingOk(gates);
  }

  lemma UnblockCanForgeDone() returns (s: Status, u: Unblock)
    ensures TaskSound(s, []) && UnblockSpec(s, u).Wrote?
    ensures !DoneSafe(UnblockSpec(s, u).status, [])
  {
    hide GatesSound, GateResolved, IndexOf, Unresolved, Projected;
    var gates: Gates := map["smoke" := PENDING_GATE];
    s := Status("blocked", "blocked", Some("pm"), false, [], ["TASK-1"], Some("reviewer"), GateMap(gates), NoBranches,
                [], 0, 0, 0, None, "", 0);
    u := Unblock(map["TASK-1" := "done"], "done", "done", false, true, true);
    StripOf("blocked");
    StripOf("reviewer");
    StripOf("TASK-1");
    assert Dependencies(["TASK-1"]) == ["TASK-1"];
    OnePendingGate();
    assert "smoke" in GateWriter.Stored(s.gates);
    GateBlocksDone(s.gates, s.branches, []);
    UnblockIsDoneSafeExactly(s, [], u);
  }
}
