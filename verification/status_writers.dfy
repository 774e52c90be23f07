/** What each status writer decides, as a function of the stored status and its inputs.
    The class TaskFile carries the same writers out step by step. */
module StatusWriters {
  import opened Text
  import opened AuthorizationLedger
  import opened LedgerIndex
  import opened CompletionGuard
  import opened GatePlan
  import opened BranchProjection
  import GateWriter

  /** A writer stores a new status, keeps the stored one (a skip or a repeat), or refuses. */
  datatype Outcome = Wrote(status: Status) | Kept | Refused(code: nat)

  // ---- scripts/sync-status-from-output.rb ----

  datatype RoleOutput = RoleOutput(
    actor: string, nextAgent: string, verdict: string, parallel: bool, plan: Field<Plan>,
    artifact: Synced, queuePhase: string, now: int)

  const WORK_AGENTS: set<string> := {"dev", "dev-2", "reviewer", "debugger", "devops"}

  /** The agent named by the output, or the one a reviewer's verdict stands for. */
  function NextAgent(o: RoleOutput): string {
    var named := Strip(o.nextAgent);
    if named != "" || o.actor != "reviewer" then named
    else match Strip(o.verdict)
      case "approved" => "done"
      case "changes_requested" => "debugger"
      case "escalate" => "free-roam"
      case "infra_failure" => "devops"
      case _ => ""
  }

  /** The transition table: who finished, who is next, and the phase that follows. */
  function PhaseAfter(actor: string, next: string, parallel: bool, queuePhase: string, was: string): string {
    match actor
    case "pm" =>
      if next in {"dev", "dev-2"} then (if parallel then "assigned_parallel" else "assigned")
      else if next == "free-roam" then "escalated" else was
    case "dev" => if next == "reviewer" then queuePhase else if next == "free-roam" then "escalated" else was
    case "dev-2" => if next == "reviewer" then queuePhase else if next == "free-roam" then "escalated" else was
    case "reviewer" =>
      if next == "done" then "done" else if next == "debugger" then "debugging"
      else if next == "free-roam" then "escalated" else if next == "devops" then "devops_needed" else was
    case "debugger" =>
      if next == "reviewer" then queuePhase else if next in {"dev", "dev-2"} then "debugging_complete"
      else if next == "free-roam" then "escalated" else was
    case "devops" =>
      if next == "reviewer" then queuePhase else if next in {"dev", "dev-2"} then "devops_complete"
      else if next == "free-roam" then "escalated" else was
    case "free-roam" =>
      if next in {"dev", "dev-2"} then "free_roam_complete" else if next == "pm" then "pending"
      else if next == "done" then "aborted" else was
    case _ =>
      if next == "pm" then "pending" else if next in {"dev", "dev-2"} then "assigned"
      else if next == "reviewer" then queuePhase else if next == "debugger" then "debugging"
      else if next == "devops" then "devops_needed" else if next == "free-roam" then "escalated"
      else if next == "done" then "done" else was
  }

  function OldPhase(s: Status): string {
    if Strip(s.phase) == "" then "pending" else Strip(s.phase)
  }

  predicate AlreadySynced(s: Status, o: RoleOutput) { s.lastSynced == Some(o.artifact) }

  function SyncPhase(s: Status, o: RoleOutput): string {
    PhaseAfter(o.actor, NextAgent(o), o.parallel, o.queuePhase, OldPhase(s))
  }

  predicate SyncNeedsGuard(s: Status, o: RoleOutput) {
    SyncPhase(s, o) == "done" || (NextAgent(o) == "done" && o.actor != "free-roam")
  }

  /** The gates after the output's plan, if it carries one: the new table and the number of rows
      it adds to the history, or the code of the refusal. */
  datatype Planned = Planned(table: GateTable, rows: nat) | PlanRefused(code: nat)

  ghost function PlanFor(t: GateTable, o: RoleOutput): Planned {
    if o.actor != "pm" || o.plan.Absent? then Planned(t, 0)
    else if !o.plan.Val? || !PlanOk(o.plan.value) then PlanRefused(3)
    else if t.GatesNotAMap? || !Applies(GateWriter.Stored(t), o.plan.value, o.now) then PlanRefused(6)
    else
      var merged := Merged(GateWriter.Stored(t), o.plan.value, o.now);
      if merged == GateWriter.Stored(t) then Planned(t, 0)
      else Planned(GateMap(merged), ChangeRows(GateWriter.Stored(t), o.plan.value, |o.plan.value|))
  }

  function SyncedStatus(s: Status, o: RoleOutput, t: GateTable, rows: nat): Status {
    var next, phase := NextAgent(o), SyncPhase(s, o);
    Projected(s.(
      gates := t,
      freeRoamEntries := if o.actor == "free-roam" then s.freeRoamEntries + 1 else s.freeRoamEntries,
      iteration := if next in WORK_AGENTS then s.iteration + 1 else s.iteration,
      phase := phase, state := phase, currentAgent := Some(next),
      ready := phase != "blocked" && next != "done",
      waitingFor := if Declared(s.branches) then s.waitingFor else [],
      historyRows := s.historyRows + rows + 1,
      lastSynced := Some(o.artifact)))
  }

  ghost function SyncSpec(s: Status, index: Option<Index>, o: RoleOutput): Outcome {
    if AlreadySynced(s, o) || NextAgent(o) == "" then Kept
    else if SyncNeedsGuard(s, o) && !MayBeDone(s.gates, s.branches, index) then Refused(5)
    else
      match PlanFor(s.gates, o)
      case PlanRefused(code) => Refused(code)
      case Planned(t, rows) => Wrote(SyncedStatus(s, o, t, rows))
  }

  // ---- scripts/force-status-route.rb ----

  function ForceSpec(s: Status, index: Option<Index>, next: string, phase: string): Outcome {
    if (phase == "done" || next == "done") && !MayBeDone(s.gates, s.branches, index) then Refused(5)
    else
      Wrote(Projected(s.(phase := phase, state := phase, currentAgent := Some(next),
                         ready := phase != "blocked" && next != "done", historyRows := s.historyRows + 1)))
  }

  // ---- scripts/reconcile-decision.rb ----

  datatype Decision = Decision(kind: string, decidedAt: string, against: string)

  datatype Mapping = Mapping(phase: string, agent: Option<string>, ready: bool)

  function DecisionMap(kind: string): Option<Mapping> {
    match kind
    case "approve" => Some(Mapping("done", Some("done"), false))
    case "request_changes" => Some(Mapping("debugging", Some("debugger"), true))
    case "escalate" => Some(Mapping("escalated", Some("free-roam"), true))
    case "reject" => Some(Mapping("aborted", None, false))
    case _ => None
  }

  /** The newest known decision that carries a decided_at. */
  function Latest(ds: seq<Decision>): Option<Decision> {
    if ds == [] then None
    else
      var d := ds[|ds| - 1];
      if DecisionMap(d.kind).Some? && !Blank(d.decidedAt) then Some(d) else Latest(ds[..|ds| - 1])
  }

  function DecisionSpec(s: Status, index: Option<Index>, ds: seq<Decision>): Outcome {
    var latest := Latest(ds);
    if latest.None? || DecisionMap(latest.value.kind).None? || s.decisionApplied == latest.value.decidedAt then Kept
    else
      var d, m := latest.value, DecisionMap(latest.value.kind).value;
      if m.phase == "done" && !MayBeDone(s.gates, s.branches, index) then Kept
      else if d.kind == "approve" && !s.gates.NoGates? && Strip(d.against) != "" && Strip(d.against) != s.phase then
        Wrote(s.(decisionApplied := d.decidedAt, historyRows := s.historyRows + 1))
      else
        Wrote(Projected(s.(phase := m.phase, state := m.phase, currentAgent := m.agent, ready := m.ready))
              .(decisionApplied := d.decidedAt, historyRows := s.historyRows + 1))
  }

  // ---- scripts/reconcile-blocked-status.rb ----

  datatype Unblock = Unblock(
    phases: map<string, string>, unblockPhase: string, queuePhase: string,
    clearWaits: bool, setReady: bool, route: bool)

  function Dependencies(ws: seq<string>): seq<string> {
    if ws == [] then []
    else (if Strip(ws[0]) == "" then [] else [Strip(ws[0])]) + Dependencies(ws[1..])
  }

  predicate Failed(u: Unblock, d: string) { d in u.phases && u.phases[d] in {"aborted", "validation_failed"} }

  predicate Pending(u: Unblock, d: string) { !Failed(u, d) && (d !in u.phases || u.phases[d] != u.unblockPhase) }

  function EffectivePhase(s: Status): string {
    if Strip(s.state) == "" then Strip(s.phase) else Strip(s.state)
  }

  function RoutedPhase(s: Status, u: Unblock): string {
    var primary := if s.primary.Some? then Strip(s.primary.value) else "";
    if !u.route then OldPhase(s)
    else if primary in {"dev", "dev-2"} then "assigned"
    else if primary == "reviewer" then u.queuePhase
    else "pending"
  }

  function UnblockSpec(s: Status, u: Unblock): Outcome {
    var deps := Dependencies(s.blockedOn);
    if EffectivePhase(s) != "blocked" || deps == [] then Kept
    else
      var waits := if u.clearWaits then [] else s.waitingFor;
      if exists d :: d in deps && Failed(u, d) then
        Wrote(Projected(s.(phase := "escalated", state := "escalated", currentAgent := Some("free-roam"), ready := true,
                           waitingFor := waits)).(historyRows := s.historyRows + 1))
      else if exists d :: d in deps && Pending(u, d) then Kept
      else
        var primary := if s.primary.Some? then Strip(s.primary.value) else "";
        var phase := RoutedPhase(s, u);
        Wrote(Projected(s.(phase := phase, state := phase,
                           currentAgent := Some(if primary == "" then "pm" else primary),
                           blockedOn := if Declared(s.branches) then [] else s.blockedOn,
                           ready := u.setReady || s.ready, waitingFor := waits))
              .(historyRows := s.historyRows + 1))
  }

  // ---- scripts/enforce-output-contract.rb ----

  function ValidationFailedSpec(s: Status): Outcome {
    Wrote(s.(phase := "validation_failed", state := "validation_failed", ready := false,
             currentAgent := Some("free-roam"),
             validationRetries := s.validationRetries + 1,
             historyRows := if s.phase == "validation_failed" then s.historyRows else s.historyRows + 1))
  }

  // ---- scripts/update-task-branch.rb ----

  datatype BranchAction = DeclareReady | DeclareBlocked | Block | MakeReady | Finish | MarkNa

  datatype BranchCommand = BranchCommand(name: string, action: BranchAction, actor: string, reason: string,
                                         waits: seq<string>, now: int)

  function BranchState(a: BranchAction): string {
    match a
    case DeclareReady => "ready" case DeclareBlocked => "blocked" case Block => "blocked"
    case MakeReady => "ready" case Finish => "done" case MarkNa => "na"
  }

  predicate IsDeclare(a: BranchAction) { a.DeclareReady? || a.DeclareBlocked? }

  predicate BranchArgumentsOk(c: BranchCommand) {
    && IsName(c.name) && !Blank(c.actor) && !Blank(c.reason)
    && if BranchState(c.action) == "blocked"
       then c.waits != [] && forall w :: w in c.waits ==> !Blank(w) else c.waits == []
  }

  function Items(t: BranchTable): seq<NamedBranch> {
    if t.BranchList? then t.items else []
  }

  predicate HasBranch(items: seq<NamedBranch>, name: string) {
    exists b :: b in items && b.name == name
  }

  function FindBranch(items: seq<NamedBranch>, name: string): Branch {
    if items == [] then NotABranch
    else if items[0].name == name then items[0].branch
    else FindBranch(items[1..], name)
  }

  /** Storing under a name: in place when it exists, at the end when it is new. */
  function PutBranch(items: seq<NamedBranch>, name: string, b: Branch): seq<NamedBranch> {
    if items == [] then [NamedBranch(name, b)]
    else if items[0].name == name then [NamedBranch(name, b)] + items[1..]
    else [items[0]] + PutBranch(items[1..], name, b)
  }

  function BranchRecord(state: string, actor: string, reason: string, now: int, waits: seq<string>): Branch {
    Branch(Val(state), Val(actor), Val(reason), Val(Instant(now)),
           if state == "blocked" then Val(waits) else Absent, false)
  }

  predicate BranchMove(was: Branch, state: string) {
    was.Branch? &&
    if was.state == Val("ready") then state in {"blocked", "done", "na"}
    else was.state == Val("blocked") && state in {"ready", "na"}
  }

  /** The stored branches and waits a branch writer may build on. */
  predicate BranchStateReadable(s: Status) {
    && !s.branches.BranchesNotAMap?
    && (forall b :: b in Items(s.branches) ==> BranchRecordOk(b))
    && (forall w :: w in s.waitingFor ==> !Blank(w))
  }

  function BranchSpec(s: Status, c: BranchCommand): Outcome {
    if !BranchArgumentsOk(c) || s.phase !in UPDATABLE_PHASES then Refused(2)
    else if !BranchStateReadable(s) then Refused(3)
    else
      var items, state := Items(s.branches), BranchState(c.action);
      if IsDeclare(c.action) && HasBranch(items, c.name) then Refused(2)
      else if !IsDeclare(c.action) && !BranchMove(FindBranch(items, c.name), state) then Refused(2)
      else
        var stored := PutBranch(items, c.name, BranchRecord(state, c.actor, c.reason, c.now, c.waits));
        Wrote(Projected(s.(branches := BranchList(stored))).(historyRows := s.historyRows + 1))
  }

  // ---- scripts/classify-task-failure.rb ----

  datatype Failure = Failure(classification: string, agent: Option<string>, waits: seq<string>, recorded: bool)

  datatype Route = Route(phase: string, agent: string)

  function RouteFor(classification: string, agent: Option<string>): Option<Route> {
    match classification
    case "implementation_defect" =>
      if agent.None? || agent.value == "debugger" then Some(Route("debugging", "debugger"))
      else if agent.value == "dev" then Some(Route("assigned", "dev")) else None
    case "invalid_assumption" =>
      if agent.None? || agent.value == "pm" then Some(Route("pending", "pm"))
      else if agent.value == "dev" then Some(Route("assigned", "dev")) else None
    case "environment_runtime" =>
      if agent.None? || agent.value == "devops" then Some(Route("devops_needed", "devops")) else None
    case "missing_data" =>
      if agent.None? || agent.value == "debugger" then Some(Route("debugging", "debugger")) else None
    case "permission_authority" => if agent.None? || agent.value == "pm" then Some(Route("blocked", "pm")) else None
    case _ => None
  }

  function ClassifySpec(s: Status, f: Failure): Outcome {
    var route := RouteFor(f.classification, f.agent);
    if (f.classification == "permission_authority") != (f.waits != []) || (exists w :: w in f.waits && Blank(w))
       || route.None?
    then Refused(2)
    else if s.phase !in UPDATABLE_PHASES || exists w :: w in s.waitingFor && Blank(w) then Refused(3)
    else if route.value.phase != "blocked" && (s.phase == "blocked" || s.state == "blocked")
            && !(Dependencies(s.blockedOn) == [] && GlobalWaits(s.waitingFor) == []) then Refused(3)
    else if route.value.phase != "blocked" && OnlyBlocked(s.branches) then Refused(3)
    else if f.recorded then Kept
    else
      Wrote(Projected(s.(phase := route.value.phase, state := route.value.phase,
                         currentAgent := Some(route.value.agent),
                         ready := route.value.phase != "blocked", waitingFor := s.waitingFor + f.waits))
            .(historyRows := s.historyRows + 1))
  }

  // ---- scripts/revise-task-plan.rb ----

  datatype GateWish = GateWish(name: string, binding: Option<string>)

  datatype BranchWish = BranchWish(name: string, waits: seq<string>)

  datatype PlanChange = PlanChange(
    kind: string, actor: string, reason: string, gates: seq<GateWish>, branches: seq<BranchWish>,
    noNewGates: Option<string>, now: int)

  const KINDS: set<string> := {"scope_expanded", "scope_narrowed", "plan_changed", "acceptance_changed"}

  function GateNames(ws: seq<GateWish>): (r: seq<string>)
    ensures |r| == |ws| && forall i :: 0 <= i < |ws| ==> r[i] == ws[i].name
  {
    seq(|ws|, i requires 0 <= i < |ws| => ws[i].name)
  }

  function BranchNames(ws: seq<BranchWish>): (r: seq<string>)
    ensures |r| == |ws| && forall i :: 0 <= i < |ws| ==> r[i] == ws[i].name
  {
    seq(|ws|, i requires 0 <= i < |ws| => ws[i].name)
  }

  /** A wish for a branch with waiting text declares it blocked, one without declares it ready. */
  function WishState(w: BranchWish): string { if w.waits == [] then "ready" else "blocked" }

  predicate ChangeArgumentsOk(c: PlanChange) {
    && c.kind in KINDS && !Blank(c.actor) && !Blank(c.reason)
    && (forall g :: g in c.gates ==> IsName(g.name) && (g.binding.Some? ==> g.binding.value in ACTIONS))
    && (forall b :: b in c.branches ==> IsName(b.name) && |b.waits| <= 1 && forall w :: w in b.waits ==> !Blank(w))
    && (if c.noNewGates.Some? then !Blank(c.noNewGates.value) && c.gates == [] && c.branches == []
        else c.gates != [] || c.branches != [])
    && Distinct(GateNames(c.gates)) && Distinct(BranchNames(c.branches))
  }

  function EffectsOf(c: PlanChange): Effects {
    if c.noNewGates.Some? then NoNewGates(c.noNewGates.value)
    else Declares(GateNames(c.gates), BranchNames(c.branches))
  }

  predicate GatesNamed(s: Status, names: seq<string>) {
    (forall n :: n in names ==> IsName(n) && n in GateWriter.Stored(s.gates)) && Distinct(names)
  }

  predicate BranchesNamed(s: Status, names: seq<string>) {
    (forall n :: n in names ==> IsName(n) && HasBranch(Items(s.branches), n)) && Distinct(names)
  }

  /** The rules a stored revision can break by itself: a known kind, text, and effects that name each
      stored gate or branch once, at least one of them. */
  predicate RevisionFieldsOk(s: Status, r: Revision) {
    && r.kind in KINDS && !Blank(r.actor) && !Blank(r.reason)
    && match r.effects
       case NoNewGates(why) => !Blank(why)
       case Declares(gates, branches) =>
         GatesNamed(s, gates) && BranchesNamed(s, branches) && (gates != [] || branches != [])
  }

  predicate Rising(rs: seq<Revision>) {
    forall i, j :: 0 <= i < j < |rs| ==> rs[i].number < rs[j].number
  }

  /** The stored revisions a new one may build on. */
  predicate RevisionsOk(s: Status) {
    Rising(s.revisions) && forall r :: r in s.revisions ==> RevisionFieldsOk(s, r)
  }

  /** Is this the change already recorded last, with the same bindings and branch states? */
  predicate AlreadyRecorded(s: Status, c: PlanChange) {
    && |s.revisions| > 0
    && var last := s.revisions[|s.revisions| - 1];
    && last.kind == c.kind && last.actor == c.actor && last.reason == c.reason && last.effects == EffectsOf(c)
    && (forall g :: g in c.gates ==>
          GateWriter.IsGateIn(GateWriter.Stored(s.gates), g.name)
          && BindingValue(GateWriter.Stored(s.gates)[g.name].binding) == g.binding)
    && (forall b :: b in c.branches ==>
          var stored := FindBranch(Items(s.branches), b.name);
          && stored.Branch? && stored.state == Val(WishState(b))
          && (WishState(b) == "blocked" ==> stored.waitingFor == Val(b.waits)))
  }

  predicate GatesReadable(t: GateTable) {
    !t.GatesNotAMap? && forall n :: n in GateWriter.Stored(t) ==> GateWriter.Stored(t)[n].Gate?
  }

  predicate StoredReadable(s: Status, c: PlanChange) {
    && GatesReadable(s.gates)
    && (c.branches != [] || !s.branches.NoBranches? ==> BranchStateReadable(s))
    && RevisionsOk(s)
  }

  function DeclaredGate(g: GateWish, actor: string, reason: string, now: int): Gate {
    Gate(Val("pending"), Val(actor), Val(reason), Val(Instant(now)), [],
         if g.binding.Some? then Val(g.binding.value) else Absent, Absent, Absent, Absent, Absent, Absent)
  }

  function WithGates(gates: Gates, c: PlanChange, n: nat): Gates
    requires n <= |c.gates|
  {
    if n == 0 then gates
    else WithGates(gates, c, n - 1)[c.gates[n - 1].name := DeclaredGate(c.gates[n - 1], c.actor, c.reason, c.now)]
  }

  function WishRecord(c: PlanChange, b: BranchWish): Branch {
    BranchRecord(WishState(b), c.actor, c.reason, c.now, b.waits)
  }

  /** The branches are stored one by one, each followed by the projection. */
  function WithBranches(s: Status, c: PlanChange, n: nat): Status
    requires n <= |c.branches|
  {
    if n == 0 then s
    else
      var t := WithBranches(s, c, n - 1);
      var b := c.branches[n - 1];
      Projected(t.(branches := BranchList(PutBranch(Items(t.branches), b.name, WishRecord(c, b)))))
  }

  function NextRevision(rs: seq<Revision>): nat {
    if rs == [] then 1
    else
      var rest, n := NextRevision(rs[..|rs| - 1]), rs[|rs| - 1].number;
      if n + 1 > rest then n + 1 else rest
  }

  /** The status with the gates of the change declared. */
  function Gated(s: Status, c: PlanChange): Status {
    s.(gates := if c.gates == [] then s.gates else GateMap(WithGates(GateWriter.Stored(s.gates), c, |c.gates|)))
  }

  function RevisedStatus(s: Status, c: PlanChange): Status {
    var t := WithBranches(Gated(s, c), c, |c.branches|);
    t.(revisions := s.revisions + [Revision(NextRevision(s.revisions), c.kind, c.actor, c.reason, EffectsOf(c))],
       historyRows := s.historyRows + |c.gates| + |c.branches| + 1)
  }

  function ReviseSpec(s: Status, c: PlanChange): Outcome {
    if !ChangeArgumentsOk(c) then Refused(2)
    else if !StoredReadable(s, c) then Refused(3)
    else if s.phase == "done" || s.phase == "aborted" then Refused(2)
    else if AlreadyRecorded(s, c) then Kept
    else if c.branches != [] && s.phase !in UPDATABLE_PHASES then Refused(2)
    else if exists g :: g in c.gates && g.name in GateWriter.Stored(s.gates) then Refused(2)
    else if exists b :: b in c.branches && HasBranch(Items(s.branches), b.name) then Refused(2)
    else Wrote(RevisedStatus(s, c))
  }
}
