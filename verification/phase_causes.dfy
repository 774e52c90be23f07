/** Which phase each writer leaves a task in, told phase by phase rather than writer by writer, and that
    over every run the phase a task is in has such a cause
    (scripts/sync-status-from-output.rb, scripts/reconcile-decision.rb, scripts/failure-recovery.rb,
    scripts/reconcile-blocked-status.rb, scripts/force-status-route.rb). */
module PhaseCauses {
  import opened Text
  import opened LedgerIndex
  import opened CompletionGuard
  import opened BranchProjection
  import opened StatusWriters
  import opened TaskRuns
  import opened Routing
  import GatePlan
  import PlanRetry
  import GateWriter
  import RecordAuthorization
  import TaskRules

  const DEVELOPERS: set<string> := {"dev", "dev-2"}

  /** An actor the transition table has no row for. */
  predicate Unlisted(actor: string) { actor !in ROLES }

  // ---- role outputs ----

  /** Whom an output hands over to: the agent it names or, from a reviewer who names none, the one the
      verdict stands for. */
  predicate HandsOver(o: RoleOutput, agent: string) {
    || (agent != "" && agent == Strip(o.nextAgent))
    || (o.actor == "reviewer" && Strip(o.nextAgent) == "" &&
        (|| (agent == "done" && Strip(o.verdict) == "approved")
         || (agent == "debugger" && Strip(o.verdict) == "changes_requested")
         || (agent == "free-roam" && Strip(o.verdict) == "escalate")
         || (agent == "devops" && Strip(o.verdict) == "infra_failure")))
  }

  /** How a hand-over leads to each phase. */
  predicate Enters(phase: string, actor: string, next: string, parallel: bool, queuePhase: string) {
    || (phase == "assigned_parallel" && actor == "pm" && next in DEVELOPERS && parallel)
    || (phase == "assigned" && next in DEVELOPERS && ((actor == "pm" && !parallel) || Unlisted(actor)))
    || (phase == queuePhase && next == "reviewer" && (actor in DEVELOPERS + {"debugger", "devops"} || Unlisted(actor)))
    || (phase == "debugging" && next == "debugger" && (actor == "reviewer" || Unlisted(actor)))
    || (phase == "debugging_complete" && next in DEVELOPERS && actor == "debugger")
    || (phase == "devops_needed" && next == "devops" && (actor == "reviewer" || Unlisted(actor)))
    || (phase == "devops_complete" && next in DEVELOPERS && actor == "devops")
    || (phase == "free_roam_complete" && next in DEVELOPERS && actor == "free-roam")
    || (phase == "escalated" && next == "free-roam" && actor != "free-roam")
    || (phase == "pending" && next == "pm" && (actor == "free-roam" || Unlisted(actor)))
    || (phase == "done" && next == "done" && (actor == "reviewer" || Unlisted(actor)))
    || (phase == "aborted" && next == "done" && actor == "free-roam")
  }

  /** The hand-overs that lead nowhere, and keep the phase. */
  predicate LeadsNowhere(actor: string, next: string) {
    || next !in ROLES + {"done"}
    || (actor == "pm" && next !in DEVELOPERS + {"free-roam"})
    || (actor in DEVELOPERS && next !in {"reviewer", "free-roam"})
    || (actor == "reviewer" && next in {"pm", "reviewer"} + DEVELOPERS)
    || (actor in {"debugger", "devops"} && next in {"pm", "debugger", "devops", "done"})
    || (actor == "free-roam" && next in {"reviewer", "debugger", "devops", "free-roam"})
  }

  lemma HandOverIs(o: RoleOutput, agent: string)
    ensures HandsOver(o, agent) <==> agent != "" && NextAgent(o) == agent
  {
    hide Strip;
  }

  lemma TableIs(phase: string, actor: string, next: string, parallel: bool, queuePhase: string, was: string)
    requires next != ""
    ensures PhaseAfter(actor, next, parallel, queuePhase, was) == phase <==>
              Enters(phase, actor, next, parallel, queuePhase) || (phase == was && LeadsNowhere(actor, next))
  {
    hide PhaseAfter, Enters, LeadsNowhere;
    var p := PhaseAfter(actor, next, parallel, queuePhase, was);
    PhaseHasCause(actor, next, parallel, queuePhase, was);
    if LeadsNowhere(actor, next) {
      NowhereKeeps(actor, next, parallel, queuePhase, was);
    }
    if Enters(phase, actor, next, parallel, queuePhase) {
      EnteredIs(phase, actor, next, parallel, queuePhase, was);
    }
  }

  lemma PhaseHasCause(actor: string, next: string, parallel: bool, queuePhase: string, was: string)
    requires next != ""
    ensures var p := PhaseAfter(actor, next, parallel, queuePhase, was);
            Enters(p, actor, next, parallel, queuePhase) || (p == was && LeadsNowhere(actor, next))
  {
  }

  lemma NowhereKeeps(actor: string, next: string, parallel: bool, queuePhase: string, was: string)
    requires LeadsNowhere(actor, next)
    ensures PhaseAfter(actor, next, parallel, queuePhase, was) == was
  {
  }

  lemma EnteredIs(phase: string, actor: string, next: string, parallel: bool, queuePhase: string, was: string)
    requires Enters(phase, actor, next, parallel, queuePhase)
    ensures PhaseAfter(actor, next, parallel, queuePhase, was) == phase
  {
  }

  /** Who may hand over whom into the phase. */
  predicate CanEnter(phase: string, actor: string, next: string) {
    exists parallel, queuePhase :: queuePhase in QUEUE_PHASES && Enters(phase, actor, next, parallel, queuePhase)
  }

  /** The report expects in each phase exactly those whom some hand-over brings into it; and in two more
      phases the reviewer, whom none does. */
  lemma ExpectedExactly(phase: string, next: string)
    requires phase !in {"blocked", "validation_failed"} && ExpectedAgents(phase).Some?
    ensures next in ExpectedAgents(phase).value <==>
              || (exists actor :: CanEnter(phase, actor, next))
              || (next == "reviewer" && phase in {"devops_complete", "free_roam_complete"})
  {
    if next in ExpectedAgents(phase).value
       && !(next == "reviewer" && phase in {"devops_complete", "free_roam_complete"}) {
      var actor, parallel, queuePhase := EntersFrom(phase, next);
    }
    if actor :| CanEnter(phase, actor, next) {
      EnteredIsExpected(phase, actor, next);
    }
  }

  lemma EntersFrom(phase: string, next: string) returns (actor: string, parallel: bool, queuePhase: string)
    requires phase !in {"blocked", "validation_failed"} && ExpectedAgents(phase).Some?
    requires next in ExpectedAgents(phase).value
    requires !(next == "reviewer" && phase in {"devops_complete", "free_roam_complete"})
    ensures queuePhase in QUEUE_PHASES && Enters(phase, actor, next, parallel, queuePhase)
    ensures CanEnter(phase, actor, next)
  {
    queuePhase := if phase == "in_review" then "in_review" else "review";
    parallel := phase == "assigned_parallel";
    actor := match phase
      case "assigned" => "pm"
      case "assigned_parallel" => "pm"
      case "review" => "dev"
      case "in_review" => "dev"
      case "debugging" => "reviewer"
      case "debugging_complete" => "debugger"
      case "devops_needed" => "reviewer"
      case "devops_complete" => "devops"
      case "escalated" => "pm"
      case "done" => "reviewer"
      case _ => "free-roam";
    assert queuePhase in QUEUE_PHASES && Enters(phase, actor, next, parallel, queuePhase);
  }

  lemma EnteredIsExpected(phase: string, actor: string, next: string)
    requires CanEnter(phase, actor, next) && ExpectedAgents(phase).Some?
    ensures next in ExpectedAgents(phase).value
  {
    var parallel, queuePhase :| queuePhase in QUEUE_PHASES && Enters(phase, actor, next, parallel, queuePhase);
  }

  /** What the projection of the branches makes of a phase, an agent and a readiness. */
  predicate Left(t: Status, phase: string, agent: Option<string>, ready: bool) {
    && t.state == t.phase
    && if Declared(t.branches) && phase !in OVERRIDE_PHASES && OnlyBlocked(t.branches) then
         t.phase == "blocked" && t.currentAgent == agent && !t.ready
       else if Declared(t.branches) && phase == "blocked" && CanResume(t) then
         t.phase == "assigned" && t.ready && t.currentAgent == (if t.primary.Some? then t.primary else agent)
       else t.phase == phase && t.currentAgent == agent && t.ready == ready
  }

  lemma LeftIgnores(t: Status, u: Status, phase: string, agent: Option<string>, ready: bool)
    requires Left(t, phase, agent, ready) && u == t.(decisionApplied := u.decisionApplied, historyRows := u.historyRows)
    ensures Left(u, phase, agent, ready)
  {
    hide GlobalWaits, OnlyBlocked;
  }

  /** What no writer of phases touches. */
  predicate SameRest(s: Status, t: Status) {
    && t.branches == s.branches && t.primary == s.primary && t.revisions == s.revisions
  }

  lemma ProjectionLeaves(b: Status)
    requires b.state == b.phase
    ensures Left(Projected(b), b.phase, b.currentAgent, b.ready) && SameRest(b, Projected(b))
    ensures Projected(b).blockedOn == b.blockedOn && GlobalWaits(Projected(b).waitingFor) == GlobalWaits(b.waitingFor)
    ensures !Declared(b.branches) ==> Projected(b) == b
    ensures Projected(b).(phase := b.phase, state := b.state, currentAgent := b.currentAgent, ready := b.ready,
                          waitingFor := b.waitingFor) == b
  {
    hide GlobalWaits, BranchWaits, OnlyBlocked, BranchOnly;
    if Declared(b.branches) {
      ProjectedWaits(b);
    }
  }

  /** Exactly what an applied output leaves: the phase and agent of its hand-over, or the old phase where the
      hand-over leads nowhere; the counters one up exactly for a working agent and for free-roam. */
  lemma SyncLeaves(s: Status, index: Option<Index>, o: RoleOutput, agent: string, phase: string)
    requires SyncSpec(s, index, o).Wrote? && HandsOver(o, agent)
    requires || Enters(phase, o.actor, agent, o.parallel, o.queuePhase)
             || (LeadsNowhere(o.actor, agent) && phase == (if Strip(s.phase) == "" then "pending" else Strip(s.phase)))
    ensures var t := SyncSpec(s, index, o).status;
            && Left(t, phase, Some(agent), phase != "blocked" && agent != "done") && SameRest(s, t)
            && t.iteration == s.iteration + (if agent in ROLES - {"pm", "free-roam"} then 1 else 0)
            && t.freeRoamEntries == s.freeRoamEntries + (if o.actor == "free-roam" then 1 else 0)
            && t.validationRetries == s.validationRetries && t.decisionApplied == s.decisionApplied
            && t.blockedOn == s.blockedOn && t.lastSynced == Some(o.artifact)
            && GlobalWaits(t.waitingFor) == (if Declared(s.branches) then GlobalWaits(s.waitingFor) else [])
            && (o.actor != "pm" || o.plan.Absent? ==> t.gates == s.gates)
  {
    hide NextAgent, MayBeDone, Projected, PlanFor, PhaseAfter, Enters, LeadsNowhere, Left, HandsOver, OnlyBlocked,
         GlobalWaits, Strip, BranchWaits;
    HandOverIs(o, agent);
    TableIs(phase, o.actor, agent, o.parallel, o.queuePhase, OldPhase(s));
    var planned := PlanFor(s.gates, o);
    NoPlanNoGates(s.gates, o);
    var b := TaskRules.BeforeProjection(s, o, planned.table, planned.rows);
    ProjectionLeaves(b);
    NoWaits();
  }

  lemma NoWaits()
    ensures GlobalWaits([]) == []
  {
  }

  lemma NoPlanNoGates(t: GateTable, o: RoleOutput)
    ensures o.actor != "pm" || o.plan.Absent? ==> PlanFor(t, o) == Planned(t, 0)
  {
  }

  /** Exactly when an output is applied: it is a new artifact that hands over to somebody, the guard agrees
      where it asks for done or leaves the task there, and a plan it carries fits the stored gates. */
  lemma SyncAppliesExactly(s: Status, index: Option<Index>, o: RoleOutput)
    ensures SyncSpec(s, index, o).Wrote? <==>
              && s.lastSynced != Some(o.artifact)
              && (exists agent :: HandsOver(o, agent)
                    && ((agent == "done" && o.actor != "free-roam")
                        || Enters("done", o.actor, agent, o.parallel, o.queuePhase)
                        || (LeadsNowhere(o.actor, agent) && Strip(s.phase) == "done") ==>
                          MayBeDone(s.gates, s.branches, index)))
              && (o.actor == "pm" && !o.plan.Absent? ==>
                    && o.plan.Val? && GatePlan.PlanOk(o.plan.value) && !s.gates.GatesNotAMap?
                    && GatePlan.Applies(GateWriter.Stored(s.gates), o.plan.value, o.now))
  {
    hide NextAgent, MayBeDone, SyncedStatus, PhaseAfter, Enters, LeadsNowhere, HandsOver, Strip, GatePlan.PlanOk,
         GatePlan.Applies, GatePlan.Merged, GatePlan.ChangeRows;
    forall agent { HandOverIs(o, agent); }
    if NextAgent(o) != "" {
      TableIs("done", o.actor, NextAgent(o), o.parallel, o.queuePhase, OldPhase(s));
    }
  }

  // ---- human decisions ----

  /** What each kind of decision leads to. */
  predicate Decides(kind: string, phase: string, agent: Option<string>) {
    || (phase == "done" && agent == Some("done") && kind == "approve")
    || (phase == "debugging" && agent == Some("debugger") && kind == "request_changes")
    || (phase == "escalated" && agent == Some("free-roam") && kind == "escalate")
    || (phase == "aborted" && agent == None && kind == "reject")
  }

  lemma DecisionIs(kind: string, phase: string, agent: Option<string>)
    ensures Decides(kind, phase, agent) <==>
              DecisionMap(kind).Some? &&
              DecisionMap(kind).value == Mapping(phase, agent, phase in {"debugging", "escalated"})
    ensures DecisionMap(kind).Some? ==> Decides(kind, DecisionMap(kind).value.phase, DecisionMap(kind).value.agent)
  {
  }

  /** Exactly what a new decision leaves: the phase and agent it stands for, unless the guard holds an approval
      back or the approval was made for another phase. */
  lemma DecisionLeaves(s: Status, index: Option<Index>, ds: seq<Decision>, phase: string, agent: Option<string>)
    requires Latest(ds).Some? && Latest(ds).value.decidedAt != s.decisionApplied
    requires Decides(Latest(ds).value.kind, phase, agent)
    ensures var d, out := Latest(ds).value, DecisionSpec(s, index, ds);
            if d.kind == "approve" && !MayBeDone(s.gates, s.branches, index) then out.Kept?
            else
              && out.Wrote? && out.status.decisionApplied == d.decidedAt && out.status.gates == s.gates
              && if d.kind == "approve" && !s.gates.NoGates? && Strip(d.against) !in {"", s.phase} then
                   out.status == s.(decisionApplied := d.decidedAt, historyRows := s.historyRows + 1)
                 else
                   && Left(out.status, phase, agent, phase in {"debugging", "escalated"}) && SameRest(s, out.status)
                   && out.status.blockedOn == s.blockedOn
                   && GlobalWaits(out.status.waitingFor) == GlobalWaits(s.waitingFor)
  {
    hide Latest, MayBeDone, Projected, Strip, DecisionMap, Decides, Left, GlobalWaits, OnlyBlocked;
    var kind := Latest(ds).value.kind;
    DecisionIs(kind, phase, agent);
    ApproveIs(kind, phase, agent);
    var ready := phase in {"debugging", "escalated"};
    var b := s.(phase := phase, state := phase, currentAgent := agent, ready := ready);
    ProjectionLeaves(b);
    LeftIgnores(Projected(b), Projected(b).(decisionApplied := Latest(ds).value.decidedAt,
                                            historyRows := s.historyRows + 1),
                phase, agent, ready);
  }

  lemma ApproveIs(kind: string, phase: string, agent: Option<string>)
    requires Decides(kind, phase, agent)
    ensures phase == "done" <==> kind == "approve"
  {
  }

  // ---- recovery ----

  /** What each classification of a failure leads to. */
  predicate Recovers(classification: string, asked: Option<string>, phase: string, agent: string) {
    || (phase == "debugging" && agent == "debugger" && classification in {"implementation_defect", "missing_data"}
        && asked in {None, Some("debugger")})
    || (phase == "assigned" && agent == "dev" && classification in {"implementation_defect", "invalid_assumption"}
        && asked == Some("dev"))
    || (phase == "pending" && agent == "pm" && classification == "invalid_assumption" && asked in {None, Some("pm")})
    || (phase == "devops_needed" && agent == "devops" && classification == "environment_runtime"
        && asked in {None, Some("devops")})
    || (phase == "blocked" && agent == "pm" && classification == "permission_authority" && asked in {None, Some("pm")})
  }

  lemma RouteIs(classification: string, asked: Option<string>, phase: string, agent: string)
    ensures Recovers(classification, asked, phase, agent) <==>
              RouteFor(classification, asked) == Some(Route(phase, agent))
  {
  }

  /** A task-level obstacle that recovery must not jump over. */
  predicate StillWaits(s: Status) {
    (s.phase == "blocked" || s.state == "blocked")
      && !(Dependencies(s.blockedOn) == [] && GlobalWaits(s.waitingFor) == [])
  }

  /** Exactly when a classified failure is routed, and to whom: for a permission with what it waits for and
      otherwise without; out of a block only when nothing blocks. */
  lemma ClassifyLeaves(s: Status, f: Failure, phase: string, agent: string)
    requires Recovers(f.classification, f.agent, phase, agent)
    ensures ClassifySpec(s, f).Wrote? <==>
              && !f.recorded && s.phase in UPDATABLE_PHASES
              && (f.waits == [] <==> phase != "blocked")
              && (forall w :: w in f.waits + s.waitingFor ==> !Blank(w))
              && (phase != "blocked" ==> !StillWaits(s) && !OnlyBlocked(s.branches))
    ensures ClassifySpec(s, f).Wrote? ==>
              var t := ClassifySpec(s, f).status;
              && Left(t, phase, Some(agent), phase != "blocked") && SameRest(s, t)
              && t.gates == s.gates && t.blockedOn == s.blockedOn
              && GlobalWaits(t.waitingFor) == GlobalWaits(s.waitingFor + f.waits)
  {
    hide Projected, Dependencies, GlobalWaits, OnlyBlocked, UPDATABLE_PHASES, RouteFor, Blank, Left, Recovers;
    RouteIs(f.classification, f.agent, phase, agent);
    BlockedIsPermission(f.classification, f.agent, phase, agent);
    var b := s.(phase := phase, state := phase, currentAgent := Some(agent), ready := phase != "blocked",
                waitingFor := s.waitingFor + f.waits);
    ProjectionLeaves(b);
    LeftIgnores(Projected(b), Projected(b).(historyRows := s.historyRows + 1), phase, Some(agent), phase != "blocked");
  }

  lemma BlockedIsPermission(classification: string, asked: Option<string>, phase: string, agent: string)
    requires Recovers(classification, asked, phase, agent)
    ensures phase == "blocked" <==> classification == "permission_authority"
  {
  }

  /** No other classification is routed. */
  lemma UnknownIsRefused(s: Status, f: Failure)
    requires forall phase, agent :: !Recovers(f.classification, f.agent, phase, agent)
    ensures ClassifySpec(s, f) == StatusWriters.Outcome.Refused(2)
  {
    hide Projected, Dependencies, GlobalWaits, OnlyBlocked, UPDATABLE_PHASES, RouteFor, Blank, Recovers;
    var r := RouteFor(f.classification, f.agent);
    if r.Some? {
      RouteIs(f.classification, f.agent, r.value.phase, r.value.agent);
    }
  }

  // ---- forced routes and failed validations ----

  /** Force does what it is told, except past the guard. */
  lemma ForceLeaves(s: Status, index: Option<Index>, next: string, phase: string)
    ensures ForceSpec(s, index, next, phase).Wrote? <==>
              (phase == "done" || next == "done" ==> MayBeDone(s.gates, s.branches, index))
    ensures ForceSpec(s, index, next, phase).Wrote? ==>
              var t := ForceSpec(s, index, next, phase).status;
              && Left(t, phase, Some(next), phase != "blocked" && next != "done") && SameRest(s, t)
              && t.gates == s.gates && t.blockedOn == s.blockedOn
              && GlobalWaits(t.waitingFor) == GlobalWaits(s.waitingFor)
  {
    hide MayBeDone, Projected, Left, GlobalWaits, OnlyBlocked;
    ProjectionLeaves(s.(phase := phase, state := phase, currentAgent := Some(next),
                        ready := phase != "blocked" && next != "done", historyRows := s.historyRows + 1));
  }

  predicate MarksFailure(st: Step) { st.ValidationFailedStep? }

  function Failures(steps: seq<Step>): nat {
    if steps == [] then 0 else (if MarksFailure(steps[0]) then 1 else 0) + Failures(steps[1..])
  }

  lemma RetriesStep(w: World, st: Step)
    ensures Next(w, st).status.validationRetries == w.status.validationRetries + (if MarksFailure(st) then 1 else 0)
    ensures MarksFailure(st) ==> Next(w, st).status.phase == "validation_failed" && !Next(w, st).status.ready
  {
    hide Projected, IndexOf, MayBeDone, GateWriter.Decide, RecordAuthorization.Acceptable, RecordAuthorization.NewEntry,
         PlanFor, NextAgent, SyncPhase, Latest, DecisionMap, Dependencies, RouteFor, Strip, OldPhase, RoutedPhase,
         EffectivePhase, UPDATABLE_PHASES, HighNumber, Failed, Pending, BranchArgumentsOk, BranchStateReadable,
         BranchMove, PutBranch, HasBranch, GlobalWaits, OnlyBlocked, WithBranches, WithGates, ChangeArgumentsOk,
         StoredReadable, AlreadyRecorded, NextRevision, EffectsOf;
    forall s ensures Projected(s).validationRetries == s.validationRetries {
      ProjectionKeepsRetries(s);
    }
    if st.ReviseStep? {
      BranchesKeepRetries(Gated(w.status, st.p), st.p, |st.p.branches|);
    }
  }

  lemma {:induction false} BranchesKeepRetries(s: Status, c: PlanChange, n: nat)
    requires n <= |c.branches|
    ensures WithBranches(s, c, n).validationRetries == s.validationRetries
  {
    hide Projected, PutBranch, BranchRecord;
    if n > 0 {
      BranchesKeepRetries(s, c, n - 1);
      var t, b := WithBranches(s, c, n - 1), c.branches[n - 1];
      ProjectionKeepsRetries(t.(branches := BranchList(PutBranch(Items(t.branches), b.name, WishRecord(c, b)))));
    }
  }

  lemma ProjectionKeepsRetries(s: Status)
    ensures Projected(s).validationRetries == s.validationRetries
  {
    hide GlobalWaits, BranchWaits, OnlyBlocked;
  }

  /** The retry counter of a task is the number of its failed validations, over every run. */
  lemma {:induction false} RetriesCountFailures(w: World, steps: seq<Step>)
    ensures Run(w, steps).status.validationRetries == w.status.validationRetries + Failures(steps)
    decreases |steps|
  {
    hide Next, MarksFailure;
    if steps != [] {
      RetriesStep(w, steps[0]);
      RetriesCountFailures(Next(w, steps[0]), steps[1..]);
    }
  }

  // ---- the unblocker ----

  /** The task waits for `d`, as stored with or without white space around. */
  predicate WaitsFor(s: Status, d: string) {
    d != "" && exists w :: w in s.blockedOn && Strip(w) == d
  }

  lemma {:induction false} DependenciesAre(ws: seq<string>, d: string)
    ensures d in Dependencies(ws) <==> d != "" && exists w :: w in ws && Strip(w) == d
  {
    hide Strip;
    if ws != [] {
      DependenciesAre(ws[1..], d);
      assert Dependencies(ws) == (if Strip(ws[0]) == "" then [] else [Strip(ws[0])]) + Dependencies(ws[1..]);
      assert ws[0] in ws && forall w :: w in ws[1..] ==> w in ws;
      if w :| w in ws && Strip(w) == d && w != ws[0] {
        assert w in ws[1..];
      }
    }
  }

  predicate Gone(u: Unblock, d: string) {
    d in u.phases && (u.phases[d] == "aborted" || u.phases[d] == "validation_failed")
  }

  predicate Reached(u: Unblock, d: string) { d in u.phases && u.phases[d] == u.unblockPhase }

  /** Where the assignment sends an unblocked task. */
  predicate Assigns(s: Status, u: Unblock, phase: string, agent: string) {
    var primary := if s.primary.Some? then Strip(s.primary.value) else "";
    && agent == (if primary == "" then "pm" else primary)
    && if !u.route then phase == (if Strip(s.phase) == "" then "pending" else Strip(s.phase))
       else
         || (phase == "assigned" && primary in DEVELOPERS)
         || (phase == u.queuePhase && primary == "reviewer")
         || (phase == "pending" && primary !in DEVELOPERS + {"reviewer"})
  }

  ghost predicate IsBlockedTask(s: Status) {
    (if Strip(s.state) == "" then Strip(s.phase) else Strip(s.state)) == "blocked" && exists d :: WaitsFor(s, d)
  }

  lemma BlockedTaskIs(s: Status)
    ensures IsBlockedTask(s) <==> EffectivePhase(s) == "blocked" && Dependencies(s.blockedOn) != []
  {
    hide Strip, Dependencies;
    if Dependencies(s.blockedOn) != [] {
      DependenciesAre(s.blockedOn, Dependencies(s.blockedOn)[0]);
      assert WaitsFor(s, Dependencies(s.blockedOn)[0]);
    }
    if d :| WaitsFor(s, d) {
      DependenciesAre(s.blockedOn, d);
    }
  }

  /** Exactly what the unblocker does with a blocked task: it escalates it once a task it waits for has been
      aborted or has failed its validation, releases it once all have reached the phase waited for, and
      otherwise leaves it alone. */
  lemma UnblockLeaves(s: Status, u: Unblock, phase: string, agent: string)
    requires Assigns(s, u, phase, agent)
    ensures var out := UnblockSpec(s, u);
            if !IsBlockedTask(s) then out.Kept?
            else if exists d :: WaitsFor(s, d) && Gone(u, d) then
              out.Wrote? && Left(out.status, "escalated", Some("free-roam"), true)
                && out.status.blockedOn == s.blockedOn
            else if forall d :: WaitsFor(s, d) ==> Reached(u, d) then
              && out.Wrote? && Left(out.status, phase, Some(agent), u.setReady || s.ready)
              && out.status.blockedOn == (if Declared(s.branches) then [] else s.blockedOn)
            else out.Kept?
    ensures UnblockSpec(s, u).Wrote? ==>
              var t := UnblockSpec(s, u).status;
              && SameRest(s, t) && t.gates == s.gates
              && GlobalWaits(t.waitingFor) == (if u.clearWaits then [] else GlobalWaits(s.waitingFor))
  {
    hide Projected, Strip, Dependencies, EffectivePhase, Left, GlobalWaits, OnlyBlocked, WaitsFor, IsBlockedTask,
         RoutedPhase;
    BlockedTaskIs(s);
    NoWaits();
    RoutedIs(s, u, phase, agent);
    forall d ensures d in Dependencies(s.blockedOn) <==> WaitsFor(s, d) {
      DependenciesAre(s.blockedOn, d);
      WaitsForIs(s, d);
    }
    var waits := if u.clearWaits then [] else s.waitingFor;
    var e := s.(phase := "escalated", state := "escalated", currentAgent := Some("free-roam"), ready := true,
                waitingFor := waits);
    ProjectionLeaves(e);
    LeftIgnores(Projected(e), Projected(e).(historyRows := s.historyRows + 1), "escalated", Some("free-roam"), true);
    var r := s.(phase := phase, state := phase, currentAgent := Some(agent),
                blockedOn := if Declared(s.branches) then [] else s.blockedOn,
                ready := u.setReady || s.ready, waitingFor := waits);
    ProjectionLeaves(r);
    LeftIgnores(Projected(r), Projected(r).(historyRows := s.historyRows + 1), phase, Some(agent),
                u.setReady || s.ready);
  }

  lemma WaitsForIs(s: Status, d: string)
    ensures WaitsFor(s, d) <==> d != "" && exists w :: w in s.blockedOn && Strip(w) == d
  {
  }

  lemma RoutedIs(s: Status, u: Unblock, phase: string, agent: string)
    requires Assigns(s, u, phase, agent)
    ensures RoutedPhase(s, u) == phase
    ensures agent == if s.primary.None? || Strip(s.primary.value) == "" then "pm" else Strip(s.primary.value)
  {
    hide Strip;
  }

  // ---- branches ----

  /** Which action takes a branch from where to where; None is a branch not declared yet. */
  predicate Moves(action: BranchAction, was: Option<string>, state: string) {
    || (state == "ready" && ((action == DeclareReady && was.None?) || (action == MakeReady && was == Some("blocked"))))
    || (state == "blocked" && ((action == DeclareBlocked && was.None?) || (action == Block && was == Some("ready"))))
    || (state == "done" && action == Finish && was == Some("ready"))
    || (state == "na" && action == MarkNa && was in {Some("ready"), Some("blocked")})
  }

  /** The state of a branch whose record can be read. */
  function StateOf(s: Status, name: string): Option<string> {
    var b := FindBranch(Items(s.branches), name);
    if b.Branch? && b.state.Val? then Some(b.state.value) else None
  }

  lemma MoveIs(s: Status, c: BranchCommand, state: string)
    requires BranchStateReadable(s)
    ensures Moves(c.action, StateOf(s, c.name), state) <==>
              && state == BranchState(c.action)
              && if IsDeclare(c.action) then !HasBranch(Items(s.branches), c.name)
                 else BranchMove(FindBranch(Items(s.branches), c.name), state)
  {
    hide HasBranch, Blank;
    FoundExactly(Items(s.branches), c.name);
  }

  lemma {:induction false} FoundExactly(items: seq<NamedBranch>, name: string)
    requires forall b :: b in items ==> BranchRecordOk(b)
    ensures HasBranch(items, name) <==> FindBranch(items, name).Branch?
    ensures FindBranch(items, name).Branch? ==>
              FindBranch(items, name).state in {Val("ready"), Val("blocked"), Val("done"), Val("na")}
  {
    hide HasBranch, Blank;
    if items == [] {
      NoBranchIn(name);
    } else {
      assert BranchRecordOk(items[0]);
      FoundExactly(items[1..], name);
      PlanRetry.HasHead(items, name);
    }
  }

  lemma NoBranchIn(name: string)
    ensures !HasBranch([], name)
  {
  }

  /** Exactly which branch updates land and what they leave: the branch in its new state, by whom, why and
      when, with waits exactly where it is blocked; every other branch as it was; and the task as the
      projection of the branches has it. */
  lemma BranchLeaves(s: Status, c: BranchCommand, state: string)
    requires BranchStateReadable(s) && s.state == s.phase && state == BranchState(c.action)
    ensures BranchSpec(s, c).Wrote? <==>
              && IsName(c.name) && !Blank(c.actor) && !Blank(c.reason) && s.phase in UPDATABLE_PHASES
              && (c.waits != [] <==> state == "blocked") && (forall w :: w in c.waits ==> !Blank(w))
              && Moves(c.action, StateOf(s, c.name), state)
    ensures BranchSpec(s, c).Wrote? ==>
              var t := BranchSpec(s, c).status;
              && Left(t, s.phase, s.currentAgent, s.ready)
              && t.gates == s.gates && t.blockedOn == s.blockedOn && t.primary == s.primary
              && (forall m :: m != c.name ==> FindBranch(Items(t.branches), m) == FindBranch(Items(s.branches), m))
              && FindBranch(Items(t.branches), c.name) ==
                 Branch(Val(state), Val(c.actor), Val(c.reason), Val(Instant(c.now)),
                        if state == "blocked" then Val(c.waits) else Absent, false)
  {
    hide Projected, BranchStateReadable, BranchMove, FindBranch, PutBranch, HasBranch, UPDATABLE_PHASES, Left, Moves,
         StateOf, IsName, Blank, OnlyBlocked, GlobalWaits;
    MoveIs(s, c, state);
    var record := BranchRecord(state, c.actor, c.reason, c.now, c.waits);
    forall m { PlanRetry.FindAfterPut(Items(s.branches), c.name, record, m); }
    var b := s.(branches := BranchList(PutBranch(Items(s.branches), c.name, record)));
    ProjectionLeaves(b);
    LeftIgnores(Projected(b), Projected(b).(historyRows := s.historyRows + 1), s.phase, s.currentAgent, s.ready);
  }

  // ---- over whole runs ----

  function StoredPhase(s: Status): string { if Strip(s.phase) == "" then "pending" else Strip(s.phase) }

  /** The writer's own reason to name the phase. */
  ghost predicate Names(s: Status, st: Step, phase: string) {
    match st
    case GateStep(_, _, _, _) => false
    case RecordStep(_, _) => false
    case SyncStep(o, _) =>
      exists agent :: HandsOver(o, agent) &&
        (Enters(phase, o.actor, agent, o.parallel, o.queuePhase)
         || (LeadsNowhere(o.actor, agent) && phase == StoredPhase(s)))
    case ForceStep(_, asked, _) => phase == asked
    case DecisionStep(ds, _) => Latest(ds).Some? && exists agent :: Decides(Latest(ds).value.kind, phase, agent)
    case UnblockStep(u) =>
      if exists d :: WaitsFor(s, d) && Gone(u, d) then phase == "escalated"
      else exists agent :: Assigns(s, u, phase, agent)
    case ValidationFailedStep => phase == "validation_failed"
    case BranchStep(_) => phase == s.phase
    case ClassifyStep(f) => exists agent :: Recovers(f.classification, f.agent, phase, agent)
    case ReviseStep(_) => phase == s.phase
  }

  /** Or the branches': they block the task, or resume it when nothing else holds it. */
  predicate BranchesLead(t: Status, phase: string) {
    Declared(t.branches) &&
      (if phase == "blocked" then OnlyBlocked(t.branches) || !CanResume(t)
       else phase == "assigned" && !OnlyBlocked(t.branches) && CanResume(t))
  }

  ghost predicate Causes(s: Status, st: Step, t: Status) {
    Names(s, st, t.phase) || BranchesLead(t, t.phase)
  }

  lemma LeftHasCause(t: Status, phase: string, agent: Option<string>, ready: bool)
    requires Left(t, phase, agent, ready)
    ensures t.phase == phase || BranchesLead(t, t.phase)
  {
    hide GlobalWaits, OnlyBlocked;
  }

  lemma SyncHasCause(s: Status, index: Option<Index>, o: RoleOutput, readable: bool)
    requires SyncSpec(s, index, o).Wrote?
    ensures Causes(s, SyncStep(o, readable), SyncSpec(s, index, o).status)
  {
    hide NextAgent, SyncSpec, PhaseAfter, Enters, LeadsNowhere, HandsOver, Left, Strip, BranchesLead, OnlyBlocked;
    var agent := NextAgent(o);
    WroteHandsOver(s, index, o);
    HandOverIs(o, agent);
    var phase := PhaseAfter(o.actor, agent, o.parallel, o.queuePhase, StoredPhase(s));
    TableIs(phase, o.actor, agent, o.parallel, o.queuePhase, StoredPhase(s));
    SyncLeaves(s, index, o, agent, phase);
    LeftHasCause(SyncSpec(s, index, o).status, phase, Some(agent), phase != "blocked" && agent != "done");
  }

  lemma WroteHandsOver(s: Status, index: Option<Index>, o: RoleOutput)
    requires SyncSpec(s, index, o).Wrote?
    ensures NextAgent(o) != ""
  {
    hide NextAgent, SyncNeedsGuard, MayBeDone, PlanFor, SyncedStatus;
  }

  lemma DecisionHasCause(s: Status, index: Option<Index>, ds: seq<Decision>, readable: bool)
    requires DecisionSpec(s, index, ds).Wrote? && DecisionSpec(s, index, ds).status.phase != s.phase
    ensures Causes(s, DecisionStep(ds, readable), DecisionSpec(s, index, ds).status)
  {
    hide DecisionSpec, Latest, DecisionMap, Decides, Left, Strip, BranchesLead, MayBeDone;
    NewDecision(s, index, ds);
    var m := DecisionMap(Latest(ds).value.kind).value;
    DecisionIs(Latest(ds).value.kind, m.phase, m.agent);
    DecisionLeaves(s, index, ds, m.phase, m.agent);
    LeftHasCauseIf(DecisionSpec(s, index, ds).status, m.phase, m.agent, m.phase in {"debugging", "escalated"});
  }

  lemma LeftHasCauseIf(t: Status, phase: string, agent: Option<string>, ready: bool)
    ensures Left(t, phase, agent, ready) ==> t.phase == phase || BranchesLead(t, t.phase)
  {
    hide Left, BranchesLead;
    if Left(t, phase, agent, ready) {
      LeftHasCause(t, phase, agent, ready);
    }
  }

  lemma NewDecision(s: Status, index: Option<Index>, ds: seq<Decision>)
    requires DecisionSpec(s, index, ds).Wrote?
    ensures Latest(ds).Some? && DecisionMap(Latest(ds).value.kind).Some?
            && Latest(ds).value.decidedAt != s.decisionApplied
  {
    hide Latest, DecisionMap, MayBeDone, Projected, Strip;
  }

  lemma UnblockHasCause(s: Status, u: Unblock)
    requires UnblockSpec(s, u).Wrote?
    ensures Causes(s, UnblockStep(u), UnblockSpec(s, u).status)
  {
    hide UnblockSpec, WaitsFor, Gone, Reached, IsBlockedTask, Left, Strip, BranchesLead;
    var agent := if s.primary.None? || Strip(s.primary.value) == "" then "pm" else Strip(s.primary.value);
    var phase := RoutedPhase(s, u);
    AssignsRouted(s, u, phase, agent);
    UnblockLeaves(s, u, phase, agent);
    var t := UnblockSpec(s, u).status;
    LeftHasCauseIf(t, "escalated", Some("free-roam"), true);
    LeftHasCauseIf(t, phase, Some(agent), u.setReady || s.ready);
  }

  lemma AssignsRouted(s: Status, u: Unblock, phase: string, agent: string)
    requires phase == RoutedPhase(s, u)
    requires agent == if s.primary.None? || Strip(s.primary.value) == "" then "pm" else Strip(s.primary.value)
    ensures Assigns(s, u, phase, agent)
  {
    hide Strip;
  }

  lemma ClassifyHasCause(s: Status, f: Failure)
    requires ClassifySpec(s, f).Wrote?
    ensures Causes(s, ClassifyStep(f), ClassifySpec(s, f).status)
  {
    hide ClassifySpec, Recovers, Left, BranchesLead, RouteFor;
    if forall phase, agent :: !Recovers(f.classification, f.agent, phase, agent) {
      UnknownIsRefused(s, f);
    } else {
      var phase, agent :| Recovers(f.classification, f.agent, phase, agent);
      ClassifyLeaves(s, f, phase, agent);
      LeftHasCause(ClassifySpec(s, f).status, phase, Some(agent), phase != "blocked");
    }
  }

  lemma BranchHasCause(s: Status, c: BranchCommand)
    requires BranchSpec(s, c).Wrote?
    ensures Causes(s, BranchStep(c), BranchSpec(s, c).status)
  {
    hide Projected, BranchArgumentsOk, BranchStateReadable, BranchMove, FindBranch, PutBranch, BranchRecord, HasBranch,
         UPDATABLE_PHASES, OnlyBlocked, GlobalWaits;
    ProjectionCases(WithBranch(s, c));
  }

  lemma ReviseHasCause(s: Status, c: PlanChange)
    requires ReviseSpec(s, c).Wrote? && ReviseSpec(s, c).status.phase != s.phase
    ensures Causes(s, ReviseStep(c), ReviseSpec(s, c).status)
  {
    hide ChangeArgumentsOk, StoredReadable, AlreadyRecorded, WithGates, WithBranches, NextRevision, EffectsOf,
         HasBranch, GlobalWaits, HasReady, ReadyWish, UPDATABLE_PHASES, OnlyBlocked;
    WishesAreFresh(s, c);
    var g, n := Gated(s, c), |c.branches|;
    BranchPartRoute(g, c, n);
    if n > 0 {
      BlockedAfter(g, c, n);
      ReadyStep(c, n - 1);
    }
  }

  lemma BlockedAfter(s: Status, c: PlanChange, n: nat)
    requires 0 < n <= |c.branches| && FreshNames(s, c)
    ensures var t := WithBranches(s, c, n);
            && Declared(t.branches)
            && (HasReady(Items(t.branches)) ==> !OnlyBlocked(t.branches))
            && (!HasReady(Items(t.branches)) && c.branches[n - 1].waits != [] ==> OnlyBlocked(t.branches))
  {
    hide Projected, PutBranch, BranchRecord, HasBranch, HasReady, OnlyBlocked, FreshNames;
    LaterNamesAreFresh(s, c, n - 1);
    var t, b := WithBranches(s, c, n - 1), c.branches[n - 1];
    PutFresh(Items(t.branches), b.name, WishRecord(c, b));
    NewReady(Items(t.branches), c, n - 1);
    ProjectionCases(t.(branches := BranchList(PutBranch(Items(t.branches), b.name, WishRecord(c, b)))));
  }

  lemma WishesAreFresh(s: Status, c: PlanChange)
    requires ReviseSpec(s, c).Wrote?
    ensures FreshNames(Gated(s, c), c) && (c.branches != [] ==> s.phase in UPDATABLE_PHASES)
  {
    hide StoredReadable, AlreadyRecorded, WithGates, RevisedStatus, HasBranch, UPDATABLE_PHASES, ChangeArgumentsOk;
    PlanRetry.WishNamesDiffer(c);
  }

  /** A step that changes the phase has a cause: its writer names the phase, or the branches lead there. */
  lemma StepHasCause(w: World, st: Step)
    requires Next(w, st).status.phase != w.status.phase
    ensures Causes(w.status, st, Next(w, st).status)
  {
    hide SyncSpec, ForceSpec, DecisionSpec, UnblockSpec, BranchSpec, ClassifySpec, ReviseSpec, IndexOf, BranchesLead,
         HandsOver, Enters, LeadsNowhere, Decides, Recovers, Assigns, WaitsFor, Gone, StoredPhase,
         GateWriter.Decide, RecordAuthorization.Acceptable, RecordAuthorization.NewEntry, HighNumber;
    var s := w.status;
    match st
    case SyncStep(o, readable) => SyncHasCause(s, Read(w.entries, readable), o, readable);
    case ForceStep(next, phase, readable) =>
      ForceLeaves(s, Read(w.entries, readable), next, phase);
      LeftHasCauseIf(Next(w, st).status, phase, Some(next), phase != "blocked" && next != "done");
    case DecisionStep(ds, readable) => DecisionHasCause(s, Read(w.entries, readable), ds, readable);
    case UnblockStep(u) => UnblockHasCause(s, u);
    case ValidationFailedStep =>
    case BranchStep(b) => BranchHasCause(s, b);
    case ClassifyStep(f) => ClassifyHasCause(s, f);
    case ReviseStep(p) => ReviseHasCause(s, p);
    case _ =>
  }

  /** Over every run: a task that ends in another phase than it began in was brought there by a step that
      had that cause, and has stayed there since. */
  lemma {:induction false} EveryPhaseHasACause(w: World, steps: seq<Step>) returns (i: nat)
    requires Run(w, steps).status.phase != w.status.phase
    ensures i < |steps|
    ensures var before, after := Run(w, steps[..i]), Run(w, steps[..i + 1]);
            && before.status.phase != after.status.phase
            && Causes(before.status, steps[i], after.status)
    ensures forall k :: i < k <= |steps| ==> Run(w, steps[..k]).status.phase == Run(w, steps).status.phase
    decreases |steps|
  {
    hide Next, Causes;
    var front, last := steps[..|steps| - 1], steps[|steps| - 1];
    LastStep(w, steps);
    forall k | 0 <= k <= |front| ensures steps[..k] == front[..k] {}
    assert front[..|front|] == front && steps[..|steps|] == steps;
    if Run(w, front).status.phase != Run(w, steps).status.phase {
      i := |steps| - 1;
      StepHasCause(Run(w, front), last);
    } else {
      i := EveryPhaseHasACause(w, front);
      forall k | i < k <= |steps| ensures Run(w, steps[..k]).status.phase == Run(w, steps).status.phase {
        if k < |steps| {
          assert Run(w, front[..k]).status.phase == Run(w, front).status.phase;
        }
      }
    }
  }

  lemma {:induction false} LastStep(w: World, steps: seq<Step>)
    requires steps != []
    ensures Run(w, steps) == Next(Run(w, steps[..|steps| - 1]), steps[|steps| - 1])
    decreases |steps|
  {
    hide Next;
    if |steps| == 1 {
      assert steps[1..] == [] && steps[..0] == [];
      assert Run(Next(w, steps[0]), []) == Next(w, steps[0]);
    } else {
      LastStep(Next(w, steps[0]), steps[1..]);
      assert steps[..|steps| - 1][1..] == steps[1..][..|steps| - 2];
    }
  }
}
