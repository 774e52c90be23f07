/** A task's status, and the wait and block that its branches project onto it
    (scripts/branch-projection.rb, validate_branches of validate-yaml.rb). */
module BranchProjection {
  import opened Text
  import opened CompletionGuard

  datatype Synced = Synced(file: string, digest: string)

  datatype Effects = Declares(gates: seq<string>, branches: seq<string>) | NoNewGates(why: string)

  datatype Revision = Revision(number: nat, kind: string, actor: string, reason: string, effects: Effects)

  /** The parts of status.yaml that the governed writers read or write. */
  datatype Status = Status(
    phase: string, state: string, currentAgent: Option<string>, ready: bool,
    waitingFor: seq<string>, blockedOn: seq<string>, primary: Option<string>,
    gates: GateTable, branches: BranchTable, revisions: seq<Revision>,
    iteration: int, freeRoamEntries: int, validationRetries: int,
    lastSynced: Option<Synced>, decisionApplied: string, historyRows: nat)

  const WAIT_PREFIX := "branch:"

  const UPDATABLE_PHASES: set<string> := {
    "pending", "blocked", "assigned", "assigned_parallel", "review", "in_review", "debugging",
    "debugging_complete", "devops_needed", "devops_complete", "escalated",
    "free_roam_complete", "validation_failed"
  }

  const OVERRIDE_PHASES: set<string> := {"done", "aborted", "escalated", "validation_failed"}

  predicate Declared(t: BranchTable) { t.BranchList? && t.items != [] }

  // ---- waits ----

  predicate IsBranchWait(w: string) { |w| >= |WAIT_PREFIX| && w[..|WAIT_PREFIX|] == WAIT_PREFIX }

  function GlobalWaits(ws: seq<string>): seq<string> {
    if ws == [] then []
    else if IsBranchWait(ws[0]) then GlobalWaits(ws[1..])
    else [ws[0]] + GlobalWaits(ws[1..])
  }

  function BranchOnly(ws: seq<string>): seq<string> {
    if ws == [] then []
    else if IsBranchWait(ws[0]) then [ws[0]] + BranchOnly(ws[1..])
    else BranchOnly(ws[1..])
  }

  function Joined(ws: seq<string>): string {
    if ws == [] then "" else if |ws| == 1 then ws[0] else ws[0] + "; " + Joined(ws[1..])
  }

  predicate IsBlocked(b: Branch) { b.Branch? && b.state == Val("blocked") }

  function WaitText(b: NamedBranch): string
    requires b.branch.Branch?
  {
    WAIT_PREFIX + b.name + " " + Joined(if b.branch.waitingFor.Val? then b.branch.waitingFor.value else [])
  }

  function BranchWaits(items: seq<NamedBranch>): seq<string> {
    if items == [] then []
    else
      BranchWaits(items[..|items| - 1]) +
      (if IsBlocked(items[|items| - 1].branch) then [WaitText(items[|items| - 1])] else [])
  }

  /** A projected wait tells its branch, and what that waits for. */
  lemma WaitTellsItsBranch(a: NamedBranch, b: NamedBranch)
    requires a.branch.Branch? && b.branch.Branch? && a.branch.waitingFor.Val? && b.branch.waitingFor.Val?
    requires IsName(a.name) && IsName(b.name)
    ensures WaitText(a) == WaitText(b) <==>
              a.name == b.name && Joined(a.branch.waitingFor.value) == Joined(b.branch.waitingFor.value)
  {
    hide Joined;
    var x, y := Joined(a.branch.waitingFor.value), Joined(b.branch.waitingFor.value);
    var p, q := a.name + " " + x, b.name + " " + y;
    assert WaitText(a) == WAIT_PREFIX + p && WaitText(b) == WAIT_PREFIX + q;
    assert WaitText(a)[|WAIT_PREFIX|..] == p && WaitText(b)[|WAIT_PREFIX|..] == q;
    if p == q {
      assert p[|a.name|] == ' ' && q[|b.name|] == ' ';
      assert |a.name| == |b.name|;
      assert p[..|a.name|] == a.name && q[..|b.name|] == b.name;
      assert p[|a.name| + 1..] == x && q[|b.name| + 1..] == y;
    }
  }

  predicate OnlyBlocked(t: BranchTable) {
    && Declared(t)
    && (forall b :: b in t.items && b.branch.Branch? ==> b.branch.state != Val("ready"))
    && (exists b :: b in t.items && IsBlocked(b.branch))
  }

  predicate CanResume(s: Status) { GlobalWaits(s.waitingFor) == [] && s.blockedOn == [] }

  /** What the projection leaves. */
  function Projected(s: Status): Status {
    if !Declared(s.branches) then s
    else
      var t := s.(waitingFor := GlobalWaits(s.waitingFor) + BranchWaits(s.branches.items));
      if s.phase in OVERRIDE_PHASES then t
      else if OnlyBlocked(s.branches) then t.(phase := "blocked", state := "blocked", ready := false)
      else if s.phase == "blocked" && CanResume(s) then
        t.(phase := "assigned", state := "assigned",
           currentAgent := if s.primary.Some? then s.primary else s.currentAgent, ready := true)
      else t
  }

  // ---- the stored-state rules ----

  predicate BranchRecordOk(b: NamedBranch) {
    && IsName(b.name)
    && b.branch.Branch?
    && (b.branch.state == Val("ready") || b.branch.state == Val("blocked")
        || b.branch.state == Val("done") || b.branch.state == Val("na"))
    && NonBlank(b.branch.actor) && NonBlank(b.branch.reason) && NonBlankStamp(b.branch.updatedAt)
    && !b.branch.extra
    && (if b.branch.state == Val("blocked") then
          && b.branch.waitingFor.Val? && b.branch.waitingFor.value != []
          && forall w :: w in b.branch.waitingFor.value ==> !Blank(w)
        else b.branch.waitingFor.Absent?)
  }

  /** What the guard asks of a branch is a valid record that is done or not applicable. */
  lemma ResolvedExactly(b: NamedBranch)
    requires b.branch.Branch? && !b.branch.extra
    ensures BranchResolved(b) <==> BranchRecordOk(b) && b.branch.state in {Val("done"), Val("na")}
  {
  }

  predicate RecordsOk(t: BranchTable) {
    t.NoBranches? || (t.BranchList? && t.items != [] && forall b :: b in t.items ==> BranchRecordOk(b))
  }

  /** The branch waits of the list are the current ones, in any order. */
  predicate WaitsCurrent(s: Status) {
    s.branches.BranchList? ==> multiset(BranchOnly(s.waitingFor)) == multiset(BranchWaits(s.branches.items))
  }

  /** Only blocked branches left means a blocked task; a blocked task has something it waits for. */
  predicate PhaseFitsBranches(s: Status) {
    Declared(s.branches) ==>
      if OnlyBlocked(s.branches) && s.phase !in OVERRIDE_PHASES then s.phase == "blocked" && !s.ready
      else s.phase == "blocked" ==> !CanResume(s)
  }

  predicate BranchSectionOk(s: Status) {
    RecordsOk(s.branches) && WaitsCurrent(s) && PhaseFitsBranches(s)
  }

  // ---- the projection meets them ----

  lemma {:induction false} SplitWaits(gs: seq<string>, bs: seq<string>)
    requires forall w :: w in gs ==> !IsBranchWait(w)
    requires forall w :: w in bs ==> IsBranchWait(w)
    ensures GlobalWaits(gs + bs) == gs && BranchOnly(gs + bs) == bs
  {
    var all := gs + bs;
    if gs != [] {
      assert all[1..] == gs[1..] + bs;
      SplitWaits(gs[1..], bs);
    } else if bs != [] {
      assert all == bs && all[1..] == [] + bs[1..];
      SplitWaits([], bs[1..]);
    }
  }

  lemma {:induction false} GlobalWaitsAreGlobal(ws: seq<string>)
    ensures forall w :: w in GlobalWaits(ws) ==> !IsBranchWait(w) && w in ws
  {
    if ws != [] {
      GlobalWaitsAreGlobal(ws[1..]);
    }
  }

  lemma {:induction false} BranchWaitsAreWaits(items: seq<NamedBranch>)
    ensures forall w :: w in BranchWaits(items) ==> IsBranchWait(w)
  {
    if items != [] {
      BranchWaitsAreWaits(items[..|items| - 1]);
      var b := items[|items| - 1];
      if IsBlocked(b.branch) {
        assert WaitText(b)[..|WAIT_PREFIX|] == WAIT_PREFIX;
      }
    }
  }

  lemma ProjectedWaits(s: Status)
    requires Declared(s.branches)
    ensures GlobalWaits(Projected(s).waitingFor) == GlobalWaits(s.waitingFor)
    ensures BranchOnly(Projected(s).waitingFor) == BranchWaits(s.branches.items)
  {
    hide GlobalWaits, BranchWaits, BranchOnly, IsBranchWait, OnlyBlocked, CanResume;
    GlobalWaitsAreGlobal(s.waitingFor);
    BranchWaitsAreWaits(s.branches.items);
    SplitWaits(GlobalWaits(s.waitingFor), BranchWaits(s.branches.items));
  }

  /** Whatever the writer left, the projection makes the branch section valid, provided the branch
      records themselves are. */
  lemma ProjectionIsValid(s: Status)
    requires RecordsOk(s.branches)
    ensures BranchSectionOk(Projected(s))
  {
    hide BranchRecordOk, GlobalWaits, BranchWaits, BranchOnly, OnlyBlocked;
    if Declared(s.branches) {
      ProjectedWaits(s);
    }
  }

  /** Projecting twice is projecting once. */
  lemma ProjectionIsIdempotent(s: Status)
    ensures Projected(Projected(s)) == Projected(s)
  {
    hide GlobalWaits, BranchWaits;
    if Declared(s.branches) {
      ProjectedWaits(s);
    }
  }

  /** What the projection never touches, and the only phases it sets. */
  lemma ProjectionFrame(s: Status)
    ensures var t := Projected(s);
            && t.gates == s.gates && t.branches == s.branches && t.revisions == s.revisions
            && t.iteration == s.iteration && t.freeRoamEntries == s.freeRoamEntries
            && t.lastSynced == s.lastSynced && t.historyRows == s.historyRows
            && t.decisionApplied == s.decisionApplied && t.blockedOn == s.blockedOn
            && ((t.phase == s.phase && t.state == s.state)
                || (t.phase == t.state && t.phase in {"blocked", "assigned"}))
            && (s.phase in OVERRIDE_PHASES ==> t.phase == s.phase && t.state == s.state)
  {
    hide GlobalWaits, BranchWaits;
  }
}
