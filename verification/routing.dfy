/** Phase and agent: the operator's cleanup report holds a table of its own of who may be at work in
    which phase (expected_agents_for_phase of run-agent.sh). Exactly when each writer agrees with it,
    and that over every run nothing else ever disagrees. */
module Routing {
  import opened Text
  import opened LedgerIndex
  import opened CompletionGuard
  import opened BranchProjection
  import opened StatusWriters
  import opened PlanRetry
  import opened TaskRuns
  import GateWriter
  import RecordAuthorization
  import TaskRules

  /** Who the report expects in a phase; none for a phase it does not know. */
  function ExpectedAgents(phase: string): Option<set<string>> {
    match phase
    case "pending" => Some({"pm"})
    case "assigned" => Some({"dev", "dev-2"})
    case "assigned_parallel" => Some({"dev", "dev-2"})
    case "review" => Some({"reviewer"})
    case "in_review" => Some({"reviewer"})
    case "debugging" => Some({"debugger"})
    case "debugging_complete" => Some({"dev", "dev-2"})
    case "devops_needed" => Some({"devops"})
    case "devops_complete" => Some({"dev", "dev-2", "reviewer"})
    case "escalated" => Some({"free-roam"})
    case "free_roam_complete" => Some({"dev", "dev-2", "reviewer"})
    case "validation_failed" => Some({"free-roam"})
    case "blocked" => Some({"pm", "dev", "dev-2", "reviewer", "debugger", "devops", "free-roam"})
    case "done" => Some({"done"})
    case "aborted" => Some({"done"})
    case _ => None
  }

  predicate Fits(phase: string, agent: string) {
    ExpectedAgents(phase).Some? && agent in ExpectedAgents(phase).value
  }

  /** Nobody fits every known phase. */
  predicate AgentFits(phase: string, agent: Option<string>) {
    ExpectedAgents(phase).Some? && (agent.None? || agent.value == "" || Fits(phase, agent.value))
  }

  /** The report has nothing to say about the task's route. */
  predicate RouteOk(s: Status) { s.phase == "" || AgentFits(s.phase, s.currentAgent) }

  const ROLES: set<string> := {"pm", "dev", "dev-2", "reviewer", "debugger", "devops", "free-roam"}

  /** The phases in which branches can be updated are the phases the report knows, but the two that end a
      task. */
  lemma UpdatableIsOpen(phase: string)
    ensures phase in UPDATABLE_PHASES <==> ExpectedAgents(phase).Some? && phase !in {"done", "aborted"}
  {
  }

  const QUEUE_PHASES: set<string> := {"review", "in_review"}

  // ---- the projection ----

  predicate Blocks(s: Status) { Declared(s.branches) && s.phase !in OVERRIDE_PHASES && OnlyBlocked(s.branches) }

  predicate Resumes(s: Status) {
    Declared(s.branches) && s.phase == "blocked" && !OnlyBlocked(s.branches) && CanResume(s)
  }

  /** The agent a resumed task gets. */
  function Pick(s: Status): Option<string> { if s.primary.Some? then s.primary else s.currentAgent }

  predicate Developer(agent: Option<string>) { agent in {None, Some(""), Some("dev"), Some("dev-2")} }

  lemma DeveloperFits(agent: Option<string>)
    ensures Developer(agent) <==> AgentFits("assigned", agent)
    ensures agent.Some? && agent.value in ROLES ==> AgentFits("blocked", agent)
  {
  }

  lemma ProjectionCases(s: Status)
    ensures Blocks(s) ==> Projected(s).phase == "blocked" && Projected(s).currentAgent == s.currentAgent
    ensures Resumes(s) ==> Projected(s).phase == "assigned" && Projected(s).currentAgent == Pick(s)
    ensures !Blocks(s) && !Resumes(s) ==> Projected(s).phase == s.phase && Projected(s).currentAgent == s.currentAgent
    ensures Projected(s).primary == s.primary && Projected(s).branches == s.branches
            && CanResume(Projected(s)) == CanResume(s)
  {
    hide GlobalWaits, BranchWaits, OnlyBlocked, BranchOnly;
    if Declared(s.branches) {
      ProjectedWaits(s);
    }
  }

  /** Whatever a writer left, its projection has an expected route exactly when: blocking keeps a
      worker; resuming picks a developer (or nobody); anything else had one already. */
  lemma ProjectedRouteExactly(s: Status)
    ensures RouteOk(Projected(s)) <==>
              if Blocks(s) then AgentFits("blocked", s.currentAgent)
              else if Resumes(s) then Developer(Pick(s))
              else RouteOk(s)
  {
    hide Projected, Blocks, Resumes, Developer, ExpectedAgents;
    ProjectionCases(s);
    DeveloperFits(Pick(s));
  }

  /** A task at work stays expected when its branches block it. */
  lemma BlockRouteKept(s: Status)
    requires RouteOk(s) && s.phase !in {"", "done", "aborted"}
    ensures AgentFits("blocked", s.currentAgent)
  {
  }

  // ---- role outputs ----

  /** The hand-overs for which the transition table names a phase. */
  function TableRows(actor: string): set<string> {
    match actor
    case "pm" => {"dev", "dev-2", "free-roam"}
    case "dev" => {"reviewer", "free-roam"}
    case "dev-2" => {"reviewer", "free-roam"}
    case "reviewer" => {"done", "debugger", "free-roam", "devops"}
    case "debugger" => {"reviewer", "dev", "dev-2", "free-roam"}
    case "devops" => {"reviewer", "dev", "dev-2", "free-roam"}
    case "free-roam" => {"dev", "dev-2", "pm", "done"}
    case _ => {}
  }

  lemma RowsFit(actor: string, next: string, parallel: bool, queuePhase: string, was: string)
    requires actor in ROLES && queuePhase in QUEUE_PHASES
    ensures next in TableRows(actor) ==>
              var phase := PhaseAfter(actor, next, parallel, queuePhase, was);
              Fits(phase, next) && phase != "blocked" && (phase !in OVERRIDE_PHASES ==> next != "done")
    ensures next !in TableRows(actor) ==> PhaseAfter(actor, next, parallel, queuePhase, was) == was
  {
  }

  predicate HasRow(o: RoleOutput) { NextAgent(o) in TableRows(o.actor) }

  /** Blocked branches keep the task blocked: then any worker will do. A phase kept for want of a row
      must fit the next agent, and a blocked one may resume. */
  predicate SyncFits(s: Status, o: RoleOutput) {
    if Declared(s.branches) && OnlyBlocked(s.branches) && SyncPhase(s, o) !in OVERRIDE_PHASES
    then Fits("blocked", NextAgent(o))
    else if Declared(s.branches) && !HasRow(o) && OldPhase(s) == "blocked" && CanResume(s)
    then (if s.primary.Some? then Developer(s.primary) else NextAgent(o) in {"dev", "dev-2"})
    else HasRow(o) || Fits(OldPhase(s), NextAgent(o))
  }

  lemma SyncRouteExactly(s: Status, index: Option<Index>, o: RoleOutput)
    requires SyncSpec(s, index, o).Wrote? && o.actor in ROLES && o.queuePhase in QUEUE_PHASES
    ensures RouteOk(SyncSpec(s, index, o).status) <==> SyncFits(s, o)
  {
    hide NextAgent, OldPhase, MayBeDone, Projected, PlanFor, PhaseAfter, TableRows, ExpectedAgents, ROLES,
         QUEUE_PHASES, OnlyBlocked, GlobalWaits;
    var planned, next := PlanFor(s.gates, o), NextAgent(o);
    var b := TaskRules.BeforeProjection(s, o, planned.table, planned.rows);
    ProjectedRouteExactly(b);
    RowsFit(o.actor, next, o.parallel, o.queuePhase, OldPhase(s));
    FitsIsText(SyncPhase(s, o), next);
    FitsIsText("blocked", next);
    NextIsText(s, index, o);
    OldPhaseIsText(s);
  }

  lemma NextIsText(s: Status, index: Option<Index>, o: RoleOutput)
    requires SyncSpec(s, index, o).Wrote?
    ensures NextAgent(o) != ""
  {
    hide NextAgent, SyncNeedsGuard, MayBeDone, PlanFor, SyncedStatus;
  }

  lemma OldPhaseIsText(s: Status)
    ensures OldPhase(s) != ""
  {
    hide Strip;
  }

  lemma FitsIsText(phase: string, agent: string)
    ensures Fits(phase, agent) ==> phase != "" && agent != ""
  {
  }

  /** Outputs that pass their role schema can still break the route: devops handing a standalone
      task to done keeps the phase devops_needed, which the report expects devops in. */
  lemma DevopsDoneMismatches() returns (s: Status, o: RoleOutput)
    ensures RouteOk(s) && o.actor == "devops" && NextAgent(o) == "done" && s.currentAgent == Some("devops")
    ensures SyncSpec(s, None, o).Wrote? && !RouteOk(SyncSpec(s, None, o).status)
  {
    hide Strip, Projected;
    s := Status("devops_needed", "devops_needed", Some("devops"), true, [], [], None, NoGates, NoBranches, [], 0, 0, 0,
                None, "", 0);
    o := RoleOutput("devops", "done", "", false, Absent, Synced("devops-output.yaml", "d"), "in_review", 0);
    StripOf("done");
    StripOf("devops_needed");
    VerdictMeaning(s.gates, s.branches, None);
    SyncRouteExactly(s, None, o);
  }

  // ---- routing and recovery ----

  /** What the operator forces must fit, or be blocked with a worker, or resume to a developer. */
  predicate ForceFits(s: Status, next: string, phase: string) {
    var b := s.(phase := phase, currentAgent := Some(next));
    if Blocks(b) then AgentFits("blocked", Some(next))
    else if Resumes(b) then Developer(Pick(b))
    else phase == "" || AgentFits(phase, Some(next))
  }

  lemma ForceRouteExactly(s: Status, index: Option<Index>, next: string, phase: string)
    requires ForceSpec(s, index, next, phase).Wrote?
    ensures RouteOk(ForceSpec(s, index, next, phase).status) <==> ForceFits(s, next, phase)
  {
    hide MayBeDone, Projected, ExpectedAgents, OnlyBlocked, GlobalWaits;
    ProjectedRouteExactly(s.(phase := phase, state := phase, currentAgent := Some(next),
                             ready := phase != "blocked" && next != "done", historyRows := s.historyRows + 1));
  }

  lemma DecisionsFit(kind: string)
    ensures DecisionMap(kind).Some? ==>
              var m := DecisionMap(kind).value;
              AgentFits(m.phase, m.agent) && m.phase != "" && m.phase != "blocked"
                && (m.phase !in OVERRIDE_PHASES ==> AgentFits("blocked", m.agent))
  {
  }

  /** A human decision never breaks the route. */
  lemma DecisionRoutes(s: Status, index: Option<Index>, ds: seq<Decision>)
    requires DecisionSpec(s, index, ds).Wrote? && RouteOk(s)
    ensures RouteOk(DecisionSpec(s, index, ds).status)
  {
    hide Latest, MayBeDone, Projected, Strip, DecisionMap, ExpectedAgents, OnlyBlocked;
    DecisionsFit(Latest(ds).value.kind);
    var m := DecisionMap(Latest(ds).value.kind).value;
    ProjectedRouteExactly(s.(phase := m.phase, state := m.phase, currentAgent := m.agent, ready := m.ready));
  }

  lemma RoutesFit(classification: string, agent: Option<string>)
    ensures RouteFor(classification, agent).Some? ==>
              var r := RouteFor(classification, agent).value;
              Fits(r.phase, r.agent) && r.phase != "" && (r.phase == "blocked" ==> r.agent == "pm")
                && r.phase !in OVERRIDE_PHASES
  {
  }

  /** Recovery breaks the route only where it blocks the task for the project manager with waits of
      branches only, so that it resumes at once, to somebody who is no developer. */
  predicate ClassifyFits(s: Status, f: Failure) {
    var route := RouteFor(f.classification, f.agent);
    route.Some? && route.value.phase == "blocked"
      && Resumes(s.(phase := "blocked", waitingFor := s.waitingFor + f.waits)) ==>
      s.primary.Some? && Developer(s.primary)
  }

  lemma RecoveryRouteExactly(s: Status, f: Failure)
    requires ClassifySpec(s, f).Wrote?
    ensures RouteOk(ClassifySpec(s, f).status) <==> ClassifyFits(s, f)
  {
    hide Projected, Dependencies, GlobalWaits, OnlyBlocked, UPDATABLE_PHASES, RouteFor, ExpectedAgents, Blank;
    RoutesFit(f.classification, f.agent);
    var r := RouteFor(f.classification, f.agent).value;
    ProjectedRouteExactly(s.(phase := r.phase, state := r.phase, currentAgent := Some(r.agent),
                             ready := r.phase != "blocked", waitingFor := s.waitingFor + f.waits));
    DeveloperFits(Some("pm"));
  }

  /** Text given as a wait may look like a branch's: then a recovery that asks for a human grant
      is lost, and the task resumes at once, here to the reviewer it is assigned to. */
  lemma RecoveryMismatches() returns (s: Status, f: Failure)
    ensures RouteOk(s) && s.primary == Some("reviewer") && f.classification == "permission_authority"
    ensures ClassifySpec(s, f).Wrote? && !RouteOk(ClassifySpec(s, f).status)
            && ClassifySpec(s, f).status.waitingFor == []
  {
    hide Projected, BranchRecordOk;
    s := Status("review", "review", Some("reviewer"), true, [], [], Some("reviewer"), NoGates,
                BranchList([NamedBranch("a", READY_BRANCH)]), [], 0, 0, 0, None, "", 0);
    f := Failure("permission_authority", None, ["branch:b"], false);
    assert !IsSpace("branch:b"[0]);
    assert !Blank("branch:b");
    assert ClassifySpec(s, f).Wrote?;
    assert IsBranchWait("branch:b");
    assert GlobalWaits(["branch:b"][1..]) == [];
    assert s.waitingFor + f.waits == ["branch:b"] && GlobalWaits(["branch:b"]) == [];
    assert s.branches.items[0].branch.state == Val("ready");
    assert Resumes(s.(phase := "blocked", waitingFor := s.waitingFor + f.waits));
    RecoveryRouteExactly(s, f);
    WaitsAfter(s.(phase := "blocked", state := "blocked", currentAgent := Some("pm"), ready := false,
                  waitingFor := s.waitingFor + f.waits));
    assert BranchWaits(s.branches.items[..0]) == [];
  }

  lemma WaitsAfter(s: Status)
    requires Declared(s.branches)
    ensures Projected(s).waitingFor == GlobalWaits(s.waitingFor) + BranchWaits(s.branches.items)
  {
    hide GlobalWaits, BranchWaits, OnlyBlocked;
  }

  lemma FailedFits()
    ensures AgentFits("validation_failed", Some("free-roam")) && AgentFits("escalated", Some("free-roam"))
  {
  }

  function PrimaryOf(s: Status): string {
    if s.primary.Some? then Strip(s.primary.value) else ""
  }

  /** The unblocker's choice: the assignment's primary, or the project manager, in the phase it routes to. */
  function UnblockChoice(s: Status, u: Unblock): Status {
    s.(phase := RoutedPhase(s, u), currentAgent := Some(if PrimaryOf(s) == "" then "pm" else PrimaryOf(s)),
       blockedOn := if Declared(s.branches) then [] else s.blockedOn,
       waitingFor := if u.clearWaits then [] else s.waitingFor)
  }

  /** Fine when a dependency failed. Otherwise a task whose branches block it again needs a worker, one
      that resumes a developer, and else the primary must fit the phase. */
  predicate UnblockFits(s: Status, u: Unblock) {
    var b := UnblockChoice(s, u);
    || (exists d :: d in Dependencies(s.blockedOn) && Failed(u, d))
    || (if Blocks(b) then AgentFits("blocked", b.currentAgent)
        else if Resumes(b) then Developer(Pick(b))
        else if u.route then PrimaryOf(s) in {"", "pm", "dev", "dev-2", "reviewer"}
        else Fits(OldPhase(s), b.currentAgent.value))
  }

  lemma UnblockRouteExactly(s: Status, u: Unblock)
    requires UnblockSpec(s, u).Wrote? && u.queuePhase in QUEUE_PHASES
    ensures RouteOk(UnblockSpec(s, u).status) <==> UnblockFits(s, u)
  {
    hide Projected, Strip, OldPhase, Dependencies, Failed, Pending, EffectivePhase, ExpectedAgents, RoutedPhase,
         QUEUE_PHASES, OnlyBlocked, GlobalWaits;
    var waits := if u.clearWaits then [] else s.waitingFor;
    var c := UnblockChoice(s, u);
    ProjectedRouteExactly(s.(phase := "escalated", state := "escalated", currentAgent := Some("free-roam"),
                             ready := true, waitingFor := waits));
    ProjectedRouteExactly(s.(phase := c.phase, state := c.phase, currentAgent := c.currentAgent,
                             blockedOn := c.blockedOn,
                             ready := u.setReady || s.ready, waitingFor := waits));
    FailedFits();
    RoutedFits(s, u);
    FitsIsText(c.phase, c.currentAgent.value);
  }

  lemma RoutedFits(s: Status, u: Unblock)
    requires u.queuePhase in QUEUE_PHASES
    ensures u.route ==> (Fits(RoutedPhase(s, u), if PrimaryOf(s) == "" then "pm" else PrimaryOf(s)) <==>
                         PrimaryOf(s) in {"", "pm", "dev", "dev-2", "reviewer"})
    ensures !u.route ==> RoutedPhase(s, u) == OldPhase(s)
    ensures RoutedPhase(s, u) != ""
  {
    hide Strip, OldPhase;
    OldPhaseIsText(s);
  }

  /** A primary the schema allows can break it: an unblocked task assigned to the debugger is routed
      to the phase pending, which the report expects the project manager in. */
  lemma UnblockMismatches() returns (s: Status, u: Unblock)
    ensures RouteOk(s) && s.primary == Some("debugger")
    ensures UnblockSpec(s, u).Wrote? && !RouteOk(UnblockSpec(s, u).status)
  {
    hide Projected, Strip, Blocks, Resumes;
    s := Status("blocked", "blocked", Some("pm"), false, [], ["TASK-1"], Some("debugger"), NoGates, NoBranches, [], 0,
                0, 0, None, "", 0);
    u := Unblock(map["TASK-1" := "done"], "done", "in_review", false, true, true);
    StripOf("blocked");
    StripOf("debugger");
    StripOf("TASK-1");
    assert Dependencies(["TASK-1"]) == ["TASK-1"];
    assert !Blocks(UnblockChoice(s, u)) && !Resumes(UnblockChoice(s, u)) by { NoBranchesNoChange(UnblockChoice(s, u)); }
    UnblockRouteExactly(s, u);
  }

  lemma NoBranchesNoChange(s: Status)
    requires s.branches.NoBranches?
    ensures !Blocks(s) && !Resumes(s)
  {
  }

  // ---- branches ----

  function WithBranch(s: Status, c: BranchCommand): Status {
    s.(branches := BranchList(PutBranch(Items(s.branches), c.name,
                                        BranchRecord(BranchState(c.action), c.actor, c.reason, c.now, c.waits))))
  }

  /** A branch update breaks the route exactly by resuming the task to somebody who is no developer. */
  predicate BranchFits(s: Status, c: BranchCommand) { Resumes(WithBranch(s, c)) ==> Developer(Pick(s)) }

  lemma BranchRouteExactly(s: Status, c: BranchCommand)
    requires BranchSpec(s, c).Wrote? && RouteOk(s)
    ensures RouteOk(BranchSpec(s, c).status) <==> BranchFits(s, c)
  {
    hide Projected, BranchArgumentsOk, BranchStateReadable, BranchMove, FindBranch, PutBranch, BranchRecord, HasBranch,
         ExpectedAgents, OnlyBlocked, GlobalWaits, Developer;
    ProjectedRouteExactly(WithBranch(s, c));
    UpdatableRoute(s);
  }

  lemma UpdatableRoute(s: Status)
    requires s.phase in UPDATABLE_PHASES && RouteOk(s)
    ensures AgentFits("blocked", s.currentAgent)
  {
    BlockRouteKept(s);
  }

  const READY_BRANCH := Branch(Val("ready"), Val("pm"), Val("r"), Val(Instant(0)), Absent, false)
  const BLOCKED_BRANCH := Branch(Val("blocked"), Val("pm"), Val("r"), Val(Instant(0)), Val(["x"]), false)

  /** A task its only branch blocked, assigned to the reviewer. */
  const BLOCKED_REVIEW := Status("blocked", "blocked", Some("reviewer"), false, ["branch:a x"], [], Some("reviewer"),
                                 NoGates,
                                 BranchList([NamedBranch("a", BLOCKED_BRANCH)]), [], 0, 0, 0, None, "", 0)

  lemma BlockedReviewReadable()
    ensures BranchStateReadable(BLOCKED_REVIEW) && CanResume(BLOCKED_REVIEW) && RouteOk(BLOCKED_REVIEW)
  {
    assert !IsSpace("pm"[0]) && !IsSpace("r"[0]) && !IsSpace("x"[0]) && !IsSpace("branch:a x"[0]);
    assert !Blank("x") && !Blank("branch:a x");
    assert BranchRecordOk(NamedBranch("a", BLOCKED_BRANCH));
    assert IsBranchWait("branch:a x");
    assert GlobalWaits(["branch:a x"][1..]) == [];
  }

  /** Making its last blocked branch ready resumes it to the reviewer in the phase assigned, which the
      report expects a developer in. */
  lemma ResumeMismatches() returns (s: Status, c: BranchCommand)
    ensures RouteOk(s) && s.primary == Some("reviewer") && c.action.MakeReady?
    ensures BranchSpec(s, c).Wrote? && !RouteOk(BranchSpec(s, c).status)
  {
    hide Projected, BranchStateReadable, GlobalWaits, CanResume;
    s := BLOCKED_REVIEW;
    c := BranchCommand("a", MakeReady, "pm", "r", [], 0);
    BlockedReviewReadable();
    assert !IsSpace("pm"[0]) && !IsSpace("r"[0]);
    assert BranchSpec(s, c).Wrote?;
    var b := WithBranch(s, c);
    assert b.branches == BranchList([NamedBranch("a", READY_BRANCH)]);
    assert b.branches.items[0].branch.state == Val("ready");
    assert Resumes(b) by { SameResume(s, b); }
    BranchRouteExactly(s, c);
  }

  lemma SameResume(s: Status, t: Status)
    requires t.waitingFor == s.waitingFor && t.blockedOn == s.blockedOn
    ensures CanResume(t) == CanResume(s)
  {
    hide GlobalWaits;
  }

  // ---- plan revisions ----

  predicate HasReady(items: seq<NamedBranch>) {
    exists b :: b in items && b.branch.Branch? && b.branch.state == Val("ready")
  }

  /** Is one of the first n declared branches ready, that is, without waits? */
  predicate ReadyWish(c: PlanChange, n: nat)
    requires n <= |c.branches|
  {
    exists i :: 0 <= i < n && c.branches[i].waits == []
  }

  /** Is the task blocked before its first ready branch: already, or by the first branch declared? */
  predicate BlocksFirst(s: Status, c: PlanChange)
    requires c.branches != []
  {
    s.phase == "blocked" || (s.phase !in OVERRIDE_PHASES && !HasReady(Items(s.branches)) && c.branches[0].waits != [])
  }

  predicate ResumesBy(s: Status, c: PlanChange, n: nat)
    requires 0 < n <= |c.branches|
  {
    BlocksFirst(s, c) && CanResume(s) && (HasReady(Items(s.branches)) || ReadyWish(c, n))
  }

  /** Where the chain of projections stands after n branches. */
  predicate PartRoute(s: Status, c: PlanChange, n: nat, t: Status)
    requires n <= |c.branches|
  {
    && t.primary == s.primary && CanResume(t) == CanResume(s)
    && t.currentAgent == (if n > 0 && ResumesBy(s, c, n) then Pick(s) else s.currentAgent)
    && t.phase == (if n == 0 || !BlocksFirst(s, c) then s.phase
                   else if ResumesBy(s, c, n) then "assigned" else "blocked")
  }

  lemma {:induction false} PutFresh(items: seq<NamedBranch>, name: string, b: Branch)
    requires !HasBranch(items, name)
    ensures PutBranch(items, name, b) == items + [NamedBranch(name, b)]
  {
    hide HasBranch;
    if items != [] {
      HasHead(items, name);
      PutFresh(items[1..], name, b);
      assert items == [items[0]] + items[1..];
    }
  }

  predicate FreshNames(s: Status, c: PlanChange) {
    && (forall b :: b in c.branches ==> !HasBranch(Items(s.branches), b.name))
    && (forall i, j :: 0 <= i < j < |c.branches| ==> c.branches[i].name != c.branches[j].name)
  }

  /** One ready branch decides whether branches block the task. */
  lemma NewReady(items: seq<NamedBranch>, c: PlanChange, n: nat)
    requires n < |c.branches|
    ensures var more := items + [NamedBranch(c.branches[n].name, WishRecord(c, c.branches[n]))];
            && (HasReady(more) <==> HasReady(items) || c.branches[n].waits == [])
            && (OnlyBlocked(BranchList(more)) <==>
                !HasReady(more) && (c.branches[n].waits != [] || OnlyBlocked(BranchList(items))))
  {
    var one := NamedBranch(c.branches[n].name, WishRecord(c, c.branches[n]));
    var more := items + [one];
    assert one in more && more[..|items|] == items;
    assert forall b :: b in more <==> b in items || b == one;
    if HasReady(items) {
      var b :| b in items && b.branch.Branch? && b.branch.state == Val("ready");
      assert b in more;
    }
  }

  lemma ReadyStep(c: PlanChange, n: nat)
    requires n < |c.branches|
    ensures ReadyWish(c, n + 1) <==> ReadyWish(c, n) || c.branches[n].waits == []
  {
  }

  lemma {:induction false} LaterNamesAreFresh(s: Status, c: PlanChange, n: nat)
    requires n <= |c.branches| && FreshNames(s, c)
    ensures forall i :: n <= i < |c.branches| ==> !HasBranch(Items(WithBranches(s, c, n).branches), c.branches[i].name)
  {
    hide Projected, PutBranch, BranchRecord, HasBranch;
    if n > 0 {
      LaterNamesAreFresh(s, c, n - 1);
      var t, b := WithBranches(s, c, n - 1), c.branches[n - 1];
      var record := WishRecord(c, b);
      forall m { FindAfterPut(Items(t.branches), b.name, record, m); }
      ProjectionCases(t.(branches := BranchList(PutBranch(Items(t.branches), b.name, record))));
    }
  }

  lemma {:induction false} BranchPartRoute(s: Status, c: PlanChange, n: nat)
    requires n <= |c.branches| && FreshNames(s, c) && (n > 0 ==> s.phase in UPDATABLE_PHASES)
    ensures PartRoute(s, c, n, WithBranches(s, c, n))
    ensures HasReady(Items(WithBranches(s, c, n).branches)) <==> HasReady(Items(s.branches)) || ReadyWish(c, n)
  {
    hide GlobalWaits, FreshNames, Projected, PutBranch, BranchRecord, HasBranch, HasReady, OnlyBlocked, PartRoute,
         ReadyWish, UPDATABLE_PHASES;
    if n == 0 {
      PartStart(s, c);
    } else {
      BranchPartRoute(s, c, n - 1);
      LaterNamesAreFresh(s, c, n - 1);
      var t, b := WithBranches(s, c, n - 1), c.branches[n - 1];
      var record := WishRecord(c, b);
      var u := t.(branches := BranchList(PutBranch(Items(t.branches), b.name, record)));
      PutFresh(Items(t.branches), b.name, record);
      NewReady(Items(t.branches), c, n - 1);
      ReadyStep(c, n - 1);
      PartStart(s, c);
      FirstReady(c, n);
      ProjectionCases(u);
      ProjectionKeepsPart(s, c, n, t, u);
    }
  }

  lemma FirstReady(c: PlanChange, n: nat)
    requires 0 < n <= |c.branches|
    ensures c.branches[0].waits == [] ==> ReadyWish(c, n)
  {
  }

  lemma PartStart(s: Status, c: PlanChange)
    ensures PartRoute(s, c, 0, s) && !ReadyWish(c, 0)
  {
    hide GlobalWaits;
  }

  /** One more branch and its projection. */
  lemma ProjectionKeepsPart(s: Status, c: PlanChange, n: nat, t: Status, u: Status)
    requires 0 < n <= |c.branches| && s.phase in UPDATABLE_PHASES && PartRoute(s, c, n - 1, t)
    requires u == t.(branches := u.branches) && Declared(u.branches)
    requires ReadyWish(c, n) <==> ReadyWish(c, n - 1) || c.branches[n - 1].waits == []
    requires n == 1 ==> !ReadyWish(c, n - 1)
    requires c.branches[0].waits == [] ==> ReadyWish(c, n)
    requires OnlyBlocked(u.branches) <==> !HasReady(Items(s.branches)) && !ReadyWish(c, n)
    ensures PartRoute(s, c, n, Projected(u))
  {
    hide Projected, GlobalWaits, OnlyBlocked, HasReady, ReadyWish;
    ProjectionCases(u);
  }

  /** A revision breaks the route exactly by resuming the task to somebody who is no developer: it
      declares branches, one of all is ready, no other wait is left, and the task was blocked or its
      first new branch blocks it in passing. */
  predicate ReviseFits(s: Status, c: PlanChange) {
    c.branches != [] && ResumesBy(s, c, |c.branches|) ==> Developer(Pick(s))
  }

  lemma ReviseRouteExactly(s: Status, c: PlanChange)
    requires ReviseSpec(s, c).Wrote? && RouteOk(s)
    ensures RouteOk(ReviseSpec(s, c).status) <==> ReviseFits(s, c)
  {
    hide ChangeArgumentsOk, StoredReadable, AlreadyRecorded, WithGates, WithBranches, NextRevision, EffectsOf,
         HasBranch, ExpectedAgents, GlobalWaits, HasReady, ReadyWish, UPDATABLE_PHASES, Developer;
    WishNamesDiffer(c);
    BranchPartRoute(Gated(s, c), c, |c.branches|);
    assert c.branches != [] ==> ResumesBy(Gated(s, c), c, |c.branches|) == ResumesBy(s, c, |c.branches|);
    assert Pick(Gated(s, c)) == Pick(s);
    DeveloperFits(Pick(s));
    if c.branches != [] { UpdatableRoute(s); }
  }

  /** A case that does: a ready branch added to a task whose branches blocked it, assigned to the reviewer. */
  lemma ReviseMismatches() returns (s: Status, c: PlanChange)
    ensures RouteOk(s) && s.primary == Some("reviewer") && |c.branches| == 1
    ensures ReviseSpec(s, c).Wrote? && !RouteOk(ReviseSpec(s, c).status)
  {
    hide Projected, RevisedStatus, HasReady, ReadyWish;
    s := BLOCKED_REVIEW;
    c := PlanChange("plan_changed", "pm", "r", [], [BranchWish("b", [])], None, 0);
    BlockedReviewReadable();
    assert !IsSpace("pm"[0]) && !IsSpace("r"[0]);
    assert ReviseSpec(s, c).Wrote?;
    FirstReady(c, 1);
    ReviseRouteExactly(s, c);
  }

  // ---- runs ----

  /** The inputs of a step name roles and a reviewer queue the workflow has. */
  predicate InputsOk(st: Step) {
    match st
    case SyncStep(o, _) => o.actor in ROLES && o.queuePhase in QUEUE_PHASES
    case UnblockStep(u) => u.queuePhase in QUEUE_PHASES
    case _ => true
  }

  /** The steps that break an expected route, each told by its input and the status it finds. */
  ghost predicate Misroutes(w: World, st: Step) {
    var s := w.status;
    match st
    case GateStep(_, _, _, _) => false
    case RecordStep(_, _) => false
    case DecisionStep(_, _) => false
    case ValidationFailedStep => false
    case SyncStep(o, readable) => SyncSpec(s, Read(w.entries, readable), o).Wrote? && !SyncFits(s, o)
    case ForceStep(next, phase, readable) =>
      ForceSpec(s, Read(w.entries, readable), next, phase).Wrote? && !ForceFits(s, next, phase)
    case UnblockStep(u) => UnblockSpec(s, u).Wrote? && !UnblockFits(s, u)
    case BranchStep(b) => BranchSpec(s, b).Wrote? && !BranchFits(s, b)
    case ClassifyStep(f) => ClassifySpec(s, f).Wrote? && !ClassifyFits(s, f)
    case ReviseStep(p) => ReviseSpec(s, p).Wrote? && !ReviseFits(s, p)
  }

  /** One step of any writer breaks an expected route exactly when `Misroutes` says so. */
  lemma StepRouteExactly(w: World, st: Step)
    requires RouteOk(w.status) && InputsOk(st)
    ensures RouteOk(Next(w, st).status) <==> !Misroutes(w, st)
  {
    hide RouteOk, SyncSpec, ForceSpec, DecisionSpec, UnblockSpec, BranchSpec, ClassifySpec, ReviseSpec,
         ValidationFailedSpec, IndexOf, SyncFits, ForceFits, UnblockFits, BranchFits, ClassifyFits, ReviseFits, ROLES,
         QUEUE_PHASES, GateWriter.Decide, RecordAuthorization.Acceptable, RecordAuthorization.NewEntry, HighNumber;
    var s := w.status;
    match st
    case GateStep(_, _, _, _) => SameRoute(s, Next(w, st).status);
    case RecordStep(_, _) =>
    case SyncStep(o, readable) =>
      if SyncSpec(s, Read(w.entries, readable), o).Wrote? { SyncRouteExactly(s, Read(w.entries, readable), o); }
    case ForceStep(next, phase, readable) =>
      if ForceSpec(s, Read(w.entries, readable), next, phase).Wrote? {
        ForceRouteExactly(s, Read(w.entries, readable), next, phase);
      }
    case DecisionStep(ds, readable) =>
      if DecisionSpec(s, Read(w.entries, readable), ds).Wrote? { DecisionRoutes(s, Read(w.entries, readable), ds); }
    case UnblockStep(u) => if UnblockSpec(s, u).Wrote? { UnblockRouteExactly(s, u); }
    case ValidationFailedStep => FailureRoutes(s);
    case BranchStep(b) => if BranchSpec(s, b).Wrote? { BranchRouteExactly(s, b); }
    case ClassifyStep(f) => if ClassifySpec(s, f).Wrote? { RecoveryRouteExactly(s, f); }
    case ReviseStep(p) => if ReviseSpec(s, p).Wrote? { ReviseRouteExactly(s, p); }
  }

  lemma SameRoute(s: Status, t: Status)
    requires t.phase == s.phase && t.currentAgent == s.currentAgent
    ensures RouteOk(t) == RouteOk(s)
  {
    hide ExpectedAgents;
  }

  lemma FailureRoutes(s: Status)
    ensures ValidationFailedSpec(s).Wrote? && RouteOk(ValidationFailedSpec(s).status)
  {
    FailedFits();
  }

  ghost predicate NeverMisroutes(w: World, steps: seq<Step>)
    decreases |steps|
  {
    steps != [] ==> InputsOk(steps[0]) && !Misroutes(w, steps[0]) && NeverMisroutes(Next(w, steps[0]), steps[1..])
  }

  /** Over every run, with or without branches: the report finds nothing unless one of those steps was
      taken. */
  lemma {:induction false} RoutesStayExpected(w: World, steps: seq<Step>)
    requires RouteOk(w.status) && NeverMisroutes(w, steps)
    ensures RouteOk(Run(w, steps).status)
    decreases |steps|
  {
    hide Next, RouteOk, Misroutes, InputsOk;
    if steps != [] {
      StepRouteExactly(w, steps[0]);
      RoutesStayExpected(Next(w, steps[0]), steps[1..]);
    }
  }
}
