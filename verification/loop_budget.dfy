/** The loop budget: applied role outputs cannot go round for free
    (the counters of scripts/sync-status-from-output.rb under the role schemas of validate-yaml.rb). */
module LoopBudget {
  import opened Text
  import opened LedgerIndex
  import opened CompletionGuard
  import opened BranchProjection
  import opened StatusWriters

  /** Every agent a base output may name. */
  const AGENTS: set<string> := {"pm", "dev", "dev-2", "reviewer", "debugger", "devops", "free-roam", "done"}

  /** Who each role may hand over to. */
  function NextFor(actor: string): set<string> {
    match actor
    case "pm" => {"dev", "dev-2", "free-roam"}
    case "dev" => {"reviewer", "dev-2", "free-roam"}
    case "dev-2" => {"reviewer", "free-roam"}
    case "reviewer" => AGENTS
    case "debugger" => {"dev", "reviewer", "free-roam"}
    case "devops" => {"reviewer", "done", "free-roam"}
    case "free-roam" => {"dev", "dev-2", "reviewer", "debugger", "devops", "pm", "done"}
    case _ => {}
  }

  predicate EnumOk(o: RoleOutput) { NextAgent(o) in NextFor(o.actor) }

  function Budget(s: Status): int { s.iteration + s.freeRoamEntries }

  datatype Sync = Sync(output: RoleOutput, index: Option<Index>)

  /** The syncs are applied one after another, each by the agent the task is with. */
  ghost predicate AppliedRun(s: Status, syncs: seq<Sync>)
    decreases |syncs|
  {
    syncs != [] ==>
      && s.currentAgent == Some(syncs[0].output.actor)
      && EnumOk(syncs[0].output)
      && !Declared(s.branches)
      && SyncSpec(s, syncs[0].index, syncs[0].output).Wrote?
      && AppliedRun(SyncSpec(s, syncs[0].index, syncs[0].output).status, syncs[1..])
  }

  ghost function AfterSyncs(s: Status, syncs: seq<Sync>): Status
    requires AppliedRun(s, syncs)
    decreases |syncs|
  {
    if syncs == [] then s else AfterSyncs(SyncSpec(s, syncs[0].index, syncs[0].output).status, syncs[1..])
  }

  /** How many hand-overs an agent can start that cost nothing. */
  function Slack(agent: Option<string>): nat {
    if agent == Some("reviewer") then 2
    else if agent == Some("free-roam") || agent == Some("done") then 0
    else 1
  }

  function Cost(o: RoleOutput): nat {
    (if o.actor == "free-roam" then 1 else 0) + (if NextAgent(o) in WORK_AGENTS then 1 else 0)
  }

  /** A hand-over that costs nothing uses up slack. */
  lemma FreeHandOver(o: RoleOutput)
    requires EnumOk(o)
    ensures Cost(o) > 0 || Slack(Some(NextAgent(o))) < Slack(Some(o.actor))
  {
    hide NextAgent;
  }

  lemma SyncMoves(s: Status, sync: Sync)
    requires SyncSpec(s, sync.index, sync.output).Wrote? && !Declared(s.branches)
    ensures var t := SyncSpec(s, sync.index, sync.output).status;
            && Budget(t) == Budget(s) + Cost(sync.output)
            && t.iteration >= s.iteration && t.freeRoamEntries >= s.freeRoamEntries
            && t.currentAgent == Some(NextAgent(sync.output))
            && t.lastSynced == Some(sync.output.artifact)
  {
    hide NextAgent, SyncPhase, MayBeDone, PlanFor, WORK_AGENTS, GlobalWaits, BranchWaits, OnlyBlocked;
  }

  /** n applied syncs raise iteration + free_roam_entries by at least (n - 2) / 3, and neither counter
      ever falls. */
  lemma {:induction false} BudgetRises(s: Status, syncs: seq<Sync>)
    requires AppliedRun(s, syncs)
    ensures var t := AfterSyncs(s, syncs);
            && |syncs| + Slack(t.currentAgent) <= 3 * (Budget(t) - Budget(s)) + Slack(s.currentAgent)
            && t.iteration >= s.iteration && t.freeRoamEntries >= s.freeRoamEntries
    decreases |syncs|
  {
    hide SyncSpec, Budget, Slack, Cost, EnumOk, Declared;
    if syncs != [] {
      var t := SyncSpec(s, syncs[0].index, syncs[0].output).status;
      SyncMoves(s, syncs[0]);
      FreeHandOver(syncs[0].output);
      SlackAtMostTwo(t.currentAgent);
      BudgetRises(t, syncs[1..]);
    }
  }

  lemma SlackAtMostTwo(agent: Option<string>)
    ensures Slack(agent) <= 2
  {
  }

  /** Any three applied syncs in a row raise the budget. */
  lemma ThreeSyncsCost(s: Status, syncs: seq<Sync>)
    requires AppliedRun(s, syncs) && |syncs| == 3
    ensures Budget(AfterSyncs(s, syncs)) > Budget(s)
  {
    hide AppliedRun, AfterSyncs, Budget, Slack;
    BudgetRises(s, syncs);
    SlackAtMostTwo(s.currentAgent);
  }

  /** So a budget bounds the run: no sequence of role outputs goes on for ever under it. */
  lemma BudgetBoundsRun(s: Status, syncs: seq<Sync>, limit: int)
    requires AppliedRun(s, syncs) && Budget(AfterSyncs(s, syncs)) <= limit
    ensures |syncs| <= 3 * (limit - Budget(s)) + 2
  {
    hide AppliedRun, AfterSyncs, Budget, Slack;
    BudgetRises(s, syncs);
    SlackAtMostTwo(s.currentAgent);
  }

  /** Syncing the artifact synced last changes nothing, whatever the ledger says meanwhile. */
  lemma RepeatedSyncIsKept(s: Status, sync: Sync, again: Sync)
    requires SyncSpec(s, sync.index, sync.output).Wrote? && again.output.artifact == sync.output.artifact
    ensures SyncSpec(SyncSpec(s, sync.index, sync.output).status, again.index, again.output) == Kept
  {
    hide NextAgent, SyncPhase, MayBeDone, PlanFor, Projected;
    var planned := PlanFor(s.gates, sync.output);
    SyncedArtifact(s, sync.output, planned.table, planned.rows);
  }

  lemma SyncedArtifact(s: Status, o: RoleOutput, t: CompletionGuard.GateTable, rows: nat)
    ensures SyncedStatus(s, o, t, rows).lastSynced == Some(o.artifact)
  {
    hide NextAgent, SyncPhase, GlobalWaits, BranchWaits, OnlyBlocked;
  }

  /** One free hand-over: a sync that needs no guard, carries no plan and costs nothing. */
  lemma FreeSync(s: Status, o: RoleOutput)
    requires o.plan.Absent? && s.lastSynced != Some(o.artifact) && s.branches.NoBranches?
    requires NextAgent(o) in {"pm", "free-roam"} && o.actor != "free-roam" && SyncPhase(s, o) != "done"
    ensures SyncSpec(s, None, o).Wrote?
    ensures var t := SyncSpec(s, None, o).status;
            && Budget(t) == Budget(s) && t.currentAgent == Some(NextAgent(o)) && t.phase == SyncPhase(s, o)
            && t.branches.NoBranches? && t.lastSynced == Some(o.artifact)
  {
    hide NextAgent, SyncPhase, MayBeDone;
  }

  /** Three is exact: two hand-overs in a row can cost nothing. */
  lemma TwoSyncsCanBeFree() returns (s: Status, syncs: seq<Sync>)
    ensures |syncs| == 2 && AppliedRun(s, syncs) && Budget(AfterSyncs(s, syncs)) == Budget(s)
  {
    hide SyncSpec, Strip, Budget;
    s := Status("in_review", "in_review", Some("reviewer"), true, [], [], None, NoGates, NoBranches, [], 0, 0, 0, None,
                "", 0);
    var o1 := RoleOutput("reviewer", "pm", "", false, Absent, Synced("reviewer-output.yaml", "1"), "in_review", 0);
    var o2 := RoleOutput("pm", "free-roam", "", false, Absent, Synced("pm-output.yaml", "2"), "in_review", 0);
    syncs := [Sync(o1, None), Sync(o2, None)];
    StripOf("pm");
    StripOf("free-roam");
    StripOf("in_review");
    FreeSync(s, o1);
    var t := SyncSpec(s, None, o1).status;
    FreeSync(t, o2);
    assert syncs[1..] == [Sync(o2, None)] && syncs[1..][1..] == [];
    var u := SyncSpec(t, None, o2).status;
    assert AppliedRun(u, []);
    assert AppliedRun(t, [Sync(o2, None)]);
    assert AfterSyncs(t, [Sync(o2, None)]) == u;
  }
}
