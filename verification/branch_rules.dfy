/** A branch that is done or not applicable is settled for good, over every run of the writers
    (scripts/update-task-branch.rb, scripts/revise-task-plan.rb). */
module BranchRules {
  import opened Text
  import opened CompletionGuard
  import opened BranchProjection
  import opened StatusWriters
  import opened PlanRetry
  import opened TaskRuns
  import opened LedgerIndex
  import GateWriter
  import RecordAuthorization

  predicate SettledBranch(b: Branch) {
    b.Branch? && (b.state == Val("done") || b.state == Val("na"))
  }

  /** Every settled branch keeps its record. */
  ghost predicate BranchesKept(before: BranchTable, later: BranchTable) {
    forall n :: SettledBranch(FindBranch(Items(before), n)) ==>
          FindBranch(Items(later), n) == FindBranch(Items(before), n)
  }

  lemma KeptTrans(a: BranchTable, b: BranchTable, c: BranchTable)
    requires BranchesKept(a, b) && BranchesKept(b, c)
    ensures BranchesKept(a, c)
  {
    hide FindBranch, SettledBranch;
  }

  lemma {:induction false} FoundIsThere(items: seq<NamedBranch>, n: string)
    ensures HasBranch(items, n) || FindBranch(items, n).NotABranch?
  {
    if items != [] {
      FoundIsThere(items[1..], n);
      HasHead(items, n);
    }
  }

  lemma BranchStepKeeps(s: Status, c: BranchCommand)
    requires BranchSpec(s, c).Wrote?
    ensures BranchesKept(s.branches, BranchSpec(s, c).status.branches)
  {
    hide FindBranch, PutBranch, HasBranch, Projected, BranchArgumentsOk, BranchStateReadable, BranchRecord,
         UPDATABLE_PHASES;
    var items, state := Items(s.branches), BranchState(c.action);
    var record := BranchRecord(state, c.actor, c.reason, c.now, c.waits);
    ProjectedBranches(s.(branches := BranchList(PutBranch(items, c.name, record))));
    FoundIsThere(items, c.name);
    forall n { FindAfterPut(items, c.name, record, n); }
  }

  lemma {:induction false} RevisionKeeps(s: Status, c: PlanChange, n: nat)
    requires n <= |c.branches| && forall b :: b in c.branches ==> !HasBranch(Items(s.branches), b.name)
    ensures forall m :: HasBranch(Items(s.branches), m) ==>
              FindBranch(Items(WithBranches(s, c, n).branches), m) == FindBranch(Items(s.branches), m)
    decreases n
  {
    hide FindBranch, PutBranch, HasBranch, Projected, BranchRecord;
    if n > 0 {
      RevisionKeeps(s, c, n - 1);
      var t, b := WithBranches(s, c, n - 1), c.branches[n - 1];
      var record := WishRecord(c, b);
      ProjectedBranches(t.(branches := BranchList(PutBranch(Items(t.branches), b.name, record))));
      forall m { FindAfterPut(Items(t.branches), b.name, record, m); }
    }
  }

  lemma ReviseStepKeeps(s: Status, c: PlanChange)
    requires ReviseSpec(s, c).Wrote?
    ensures BranchesKept(s.branches, ReviseSpec(s, c).status.branches)
  {
    hide FindBranch, HasBranch, WithBranches, WithGates, StoredReadable, AlreadyRecorded, ChangeArgumentsOk,
         NextRevision, EffectsOf, UPDATABLE_PHASES;
    var gated := Gated(s, c);
    RevisionKeeps(gated, c, |c.branches|);
    forall n { FoundIsThere(Items(s.branches), n); }
  }

  lemma SyncKeepsBranches(s: Status, index: Option<Index>, o: RoleOutput)
    ensures SyncSpec(s, index, o).Wrote? ==> SyncSpec(s, index, o).status.branches == s.branches
  {
    hide PlanFor, NextAgent, SyncPhase, MayBeDone, GlobalWaits, BranchWaits, OnlyBlocked;
  }

  lemma RoutingKeepsBranches(s: Status, index: Option<Index>, next: string, phase: string, ds: seq<Decision>)
    ensures ForceSpec(s, index, next, phase).Wrote? ==> ForceSpec(s, index, next, phase).status.branches == s.branches
    ensures DecisionSpec(s, index, ds).Wrote? ==> DecisionSpec(s, index, ds).status.branches == s.branches
  {
    hide MayBeDone, Latest, DecisionMap, Strip, GlobalWaits, BranchWaits, OnlyBlocked;
  }

  lemma RecoveryKeepsBranches(s: Status, u: Unblock, f: Failure)
    ensures UnblockSpec(s, u).Wrote? ==> UnblockSpec(s, u).status.branches == s.branches
    ensures ClassifySpec(s, f).Wrote? ==> ClassifySpec(s, f).status.branches == s.branches
  {
    hide Projected, Dependencies, RouteFor, Strip, RoutedPhase, EffectivePhase, UPDATABLE_PHASES, GlobalWaits,
         OnlyBlocked;
    forall t ensures Projected(t).branches == t.branches {
      ProjectedBranches(t);
    }
  }

  lemma OtherStepsKeepBranches(w: World, st: Step)
    requires !st.BranchStep? && !st.ReviseStep?
    ensures Next(w, st).status.branches == w.status.branches
  {
    hide SyncSpec, ForceSpec, DecisionSpec, UnblockSpec, ClassifySpec, IndexOf, GateWriter.Decide,
         RecordAuthorization.Acceptable, RecordAuthorization.NewEntry, HighNumber;
    match st
    case SyncStep(o, readable) => SyncKeepsBranches(w.status, Read(w.entries, readable), o);
    case ForceStep(next, phase, readable) => RoutingKeepsBranches(w.status, Read(w.entries, readable), next, phase, []);
    case DecisionStep(ds, readable) => RoutingKeepsBranches(w.status, Read(w.entries, readable), "", "", ds);
    case UnblockStep(u) => RecoveryKeepsBranches(w.status, u, Failure("", None, [], false));
    case ClassifyStep(f) => RecoveryKeepsBranches(w.status, Unblock(map[], "", "", false, false, false), f);
    case _ =>
  }

  /** Over every run, allowed or not: what a branch was settled with is what it stays settled with. */
  lemma {:induction false} SettledBranchesStay(w: World, steps: seq<Step>)
    ensures BranchesKept(w.status.branches, Run(w, steps).status.branches)
    decreases |steps|
  {
    hide Next, BranchesKept;
    if steps == [] {
      SameKept(w.status.branches);
    } else {
      StepKeepsBranches(w, steps[0]);
      SettledBranchesStay(Next(w, steps[0]), steps[1..]);
      KeptTrans(w.status.branches, Next(w, steps[0]).status.branches, Run(w, steps).status.branches);
    }
  }

  lemma StepKeepsBranches(w: World, st: Step)
    ensures BranchesKept(w.status.branches, Next(w, st).status.branches)
  {
    hide BranchesKept, BranchSpec, ReviseSpec;
    SameKept(w.status.branches);
    if st.BranchStep? {
      if BranchSpec(w.status, st.b).Wrote? { BranchStepKeeps(w.status, st.b); }
    } else if st.ReviseStep? {
      if ReviseSpec(w.status, st.p).Wrote? { ReviseStepKeeps(w.status, st.p); }
    } else {
      OtherStepsKeepBranches(w, st);
    }
  }

  lemma SameKept(t: BranchTable)
    ensures BranchesKept(t, t)
  {
  }
}
