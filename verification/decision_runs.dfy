/** Human decisions over whole runs: each lands at most once, and what becomes of an approval is decided
    at the first reading with nothing open (scripts/reconcile-decision.rb). */
module DecisionRuns {
  import opened Text
  import opened AuthorizationLedger
  import opened LedgerIndex
  import opened CompletionGuard
  import opened BranchProjection
  import opened StatusWriters
  import opened TaskRuns
  import opened Finishing
  import opened GatePlan
  import GateWriter
  import GateRules
  import GateProgress
  import RecordAuthorization

  // ---- only the reconciler knows the mark ----

  /** The status with another mark of the decision applied last, and `k` more history rows. */
  function Marked(s: Status, m: string, k: nat): Status {
    s.(decisionApplied := m, historyRows := s.historyRows + k)
  }

  function MarkedOutcome(o: Outcome, m: string, k: nat): Outcome {
    if o.Wrote? then Wrote(Marked(o.status, m, k)) else o
  }

  lemma ProjectionCommutes(s: Status, m: string, k: nat)
    ensures Projected(Marked(s, m, k)) == Marked(Projected(s), m, k)
  {
    hide GlobalWaits, BranchWaits, OnlyBlocked;
  }

  lemma SyncCommutes(s: Status, index: Option<Index>, o: RoleOutput, m: string, k: nat)
    ensures SyncSpec(Marked(s, m, k), index, o) == MarkedOutcome(SyncSpec(s, index, o), m, k)
  {
    hide NextAgent, PhaseAfter, MayBeDone, PlanFor, Projected, Strip;
    forall t { ProjectionCommutes(t, m, k); }
  }

  lemma ForceCommutes(s: Status, index: Option<Index>, next: string, phase: string, m: string, k: nat)
    ensures ForceSpec(Marked(s, m, k), index, next, phase) == MarkedOutcome(ForceSpec(s, index, next, phase), m, k)
  {
    hide MayBeDone, Projected;
    forall t { ProjectionCommutes(t, m, k); }
  }

  lemma UnblockCommutes(s: Status, u: Unblock, m: string, k: nat)
    ensures UnblockSpec(Marked(s, m, k), u) == MarkedOutcome(UnblockSpec(s, u), m, k)
  {
    hide Projected, Dependencies, Failed, Pending, Strip, RoutedPhase, EffectivePhase;
    RoutedAlike(s, u, m, k);
    var waits := if u.clearWaits then [] else s.waitingFor;
    ProjectionCommutes(s.(phase := "escalated", state := "escalated", currentAgent := Some("free-roam"), ready := true,
                          waitingFor := waits), m, k);
    var primary := if s.primary.Some? then Strip(s.primary.value) else "";
    ProjectionCommutes(s.(phase := RoutedPhase(s, u), state := RoutedPhase(s, u),
                          currentAgent := Some(if primary == "" then "pm" else primary),
                          blockedOn := if Declared(s.branches) then [] else s.blockedOn,
                          ready := u.setReady || s.ready, waitingFor := waits), m, k);
  }

  lemma RoutedAlike(s: Status, u: Unblock, m: string, k: nat)
    ensures RoutedPhase(Marked(s, m, k), u) == RoutedPhase(s, u) && EffectivePhase(Marked(s, m, k)) == EffectivePhase(s)
  {
    hide Strip;
  }

  lemma ValidationFailedCommutes(s: Status, m: string, k: nat)
    ensures ValidationFailedSpec(Marked(s, m, k)) == MarkedOutcome(ValidationFailedSpec(s), m, k)
  {
  }

  lemma BranchCommutes(s: Status, c: BranchCommand, m: string, k: nat)
    ensures BranchSpec(Marked(s, m, k), c) == MarkedOutcome(BranchSpec(s, c), m, k)
  {
    hide Projected, BranchArgumentsOk, BranchRecordOk, BranchMove, FindBranch, PutBranch, BranchRecord, HasBranch,
         UPDATABLE_PHASES, Blank;
    var record := BranchRecord(BranchState(c.action), c.actor, c.reason, c.now, c.waits);
    ProjectionCommutes(s.(branches := BranchList(PutBranch(Items(s.branches), c.name, record))), m, k);
  }

  lemma ClassifyCommutes(s: Status, f: Failure, m: string, k: nat)
    ensures ClassifySpec(Marked(s, m, k), f) == MarkedOutcome(ClassifySpec(s, f), m, k)
  {
    hide Projected, RouteFor, Dependencies, GlobalWaits, OnlyBlocked, UPDATABLE_PHASES, Blank;
    var route := RouteFor(f.classification, f.agent);
    if route.Some? {
      ProjectionCommutes(s.(phase := route.value.phase, state := route.value.phase,
                            currentAgent := Some(route.value.agent),
                            ready := route.value.phase != "blocked", waitingFor := s.waitingFor + f.waits), m, k);
    }
  }

  lemma {:induction false} WithBranchesCommutes(s: Status, c: PlanChange, n: nat, m: string, k: nat)
    requires n <= |c.branches|
    ensures WithBranches(Marked(s, m, k), c, n) == Marked(WithBranches(s, c, n), m, k)
  {
    hide Projected, PutBranch, BranchRecord;
    if n > 0 {
      WithBranchesCommutes(s, c, n - 1, m, k);
      var t, b := WithBranches(s, c, n - 1), c.branches[n - 1];
      var record := WishRecord(c, b);
      ProjectionCommutes(t.(branches := BranchList(PutBranch(Items(t.branches), b.name, record))), m, k);
    }
  }

  lemma ReviseCommutes(s: Status, c: PlanChange, m: string, k: nat)
    ensures ReviseSpec(Marked(s, m, k), c) == MarkedOutcome(ReviseSpec(s, c), m, k)
  {
    hide ChangeArgumentsOk, StoredReadable, AlreadyRecorded, RevisedStatus, HasBranch, UPDATABLE_PHASES;
    RevisionChecksAlike(s, c, m, k);
    RevisedCommutes(s, c, m, k);
  }

  lemma RevisionChecksAlike(s: Status, c: PlanChange, m: string, k: nat)
    ensures StoredReadable(Marked(s, m, k), c) == StoredReadable(s, c)
    ensures AlreadyRecorded(Marked(s, m, k), c) == AlreadyRecorded(s, c)
  {
    hide BranchRecordOk, FindBranch, HasBranch, Blank, KINDS, IsName, EffectsOf, BindingValue;
    forall r ensures RevisionFieldsOk(Marked(s, m, k), r) == RevisionFieldsOk(s, r) {
    }
  }

  lemma RevisedCommutes(s: Status, c: PlanChange, m: string, k: nat)
    ensures RevisedStatus(Marked(s, m, k), c) == Marked(RevisedStatus(s, c), m, k)
  {
    hide WithGates, WithBranches, NextRevision, EffectsOf;
    var gated := Gated(s, c);
    WithBranchesCommutes(gated, c, |c.branches|, m, k);
  }

  function MarkedWorld(w: World, m: string, k: nat): World { w.(status := Marked(w.status, m, k)) }

  /** No writer but the reconciler reads or writes the mark: every other step goes the same way
      whatever the mark is. */
  lemma StepCommutes(w: World, st: Step, m: string, k: nat)
    requires !st.DecisionStep?
    ensures Next(MarkedWorld(w, m, k), st) == MarkedWorld(Next(w, st), m, k)
  {
    hide SyncSpec, ForceSpec, UnblockSpec, ValidationFailedSpec, BranchSpec, ClassifySpec, ReviseSpec, IndexOf,
         GateWriter.Decide, RecordAuthorization.Acceptable, RecordAuthorization.NewEntry, HighNumber;
    var s := w.status;
    match st
    case GateStep(_, _, _, _) =>
    case RecordStep(_, _) =>
    case SyncStep(o, readable) => SyncCommutes(s, Read(w.entries, readable), o, m, k);
    case ForceStep(next, phase, readable) => ForceCommutes(s, Read(w.entries, readable), next, phase, m, k);
    case UnblockStep(u) => UnblockCommutes(s, u, m, k);
    case ValidationFailedStep => ValidationFailedCommutes(s, m, k);
    case BranchStep(b) => BranchCommutes(s, b, m, k);
    case ClassifyStep(f) => ClassifyCommutes(s, f, m, k);
    case ReviseStep(p) => ReviseCommutes(s, p, m, k);
  }

  /** Only the reconciler changes the mark. */
  lemma OthersKeepTheMark(w: World, st: Step)
    requires !st.DecisionStep?
    ensures Next(w, st).status.decisionApplied == w.status.decisionApplied
  {
    hide Next;
    assert MarkedWorld(w, w.status.decisionApplied, 0) == w;
    StepCommutes(w, st, w.status.decisionApplied, 0);
  }

  // ---- a decision that is marked is spent ----

  /** Every time the run reads the decision file it reads `ds`. */
  predicate Reads(steps: seq<Step>, ds: seq<Decision>) {
    forall st :: st in steps && st.DecisionStep? ==> st.ds == ds
  }

  /** The steps of the other writers. */
  function Others(steps: seq<Step>): seq<Step> {
    if steps == [] then [] else (if steps[0].DecisionStep? then [] else [steps[0]]) + Others(steps[1..])
  }

  lemma SpentDecision(s: Status, index: Option<Index>, ds: seq<Decision>)
    requires Latest(ds).Some? && s.decisionApplied == Latest(ds).value.decidedAt
    ensures DecisionSpec(s, index, ds) == Kept
  {
    hide Latest, DecisionMap, MayBeDone, Projected, Strip;
  }

  /** Reading a file whose newest decision is marked has no effect, however often and wherever in a
      run: it is the run of the other writers, the mark and the extra history rows kept. */
  lemma {:induction false} MarkedRunsAlike(w: World, steps: seq<Step>, ds: seq<Decision>, k: nat)
    requires Latest(ds).Some? && Reads(steps, ds)
    ensures Run(MarkedWorld(w, Latest(ds).value.decidedAt, k), steps) ==
            MarkedWorld(Run(w, Others(steps)), Latest(ds).value.decidedAt, k)
    decreases |steps|
  {
    hide Next, Latest;
    var m := Latest(ds).value.decidedAt;
    if steps != [] {
      var st, marked := steps[0], MarkedWorld(w, m, k);
      assert Reads(steps[1..], ds);
      if st.DecisionStep? {
        SpentStep(marked, st);
        MarkedRunsAlike(w, steps[1..], ds, k);
        assert Others(steps) == Others(steps[1..]);
      } else {
        StepCommutes(w, st, m, k);
        MarkedRunsAlike(Next(w, st), steps[1..], ds, k);
        assert Others(steps)[0] == st && Others(steps)[1..] == Others(steps[1..]);
      }
    }
  }

  lemma SpentStep(w: World, st: Step)
    requires st.DecisionStep? && Latest(st.ds).Some? && w.status.decisionApplied == Latest(st.ds).value.decidedAt
    ensures Next(w, st) == w
  {
    hide DecisionSpec, Latest, IndexOf;
    SpentDecision(w.status, Read(w.entries, st.readable), st.ds);
  }

  /** An approval for another phase that is read when the guard has nothing open has no effect for
      good: every run that reads the same file goes on exactly as if it had never been given, but for
      the mark and one history row, even once the task is back in the phase it was made for. */
  lemma SupersededApprovalHasNoEffect(w: World, ds: seq<Decision>, readable: bool, steps: seq<Step>)
    requires Latest(ds).Some? && Latest(ds).value.kind == "approve" && Superseded(w.status, Latest(ds).value)
    requires w.status.decisionApplied != Latest(ds).value.decidedAt && Reads(steps, ds)
    requires MayBeDone(w.status.gates, w.status.branches, Read(w.entries, readable))
    ensures Run(Next(w, DecisionStep(ds, readable)), steps) ==
            MarkedWorld(Run(w, Others(steps)), Latest(ds).value.decidedAt, 1)
  {
    hide Run, Latest, Others;
    OnlyMarked(w.status, Read(w.entries, readable), ds);
    assert Next(w, DecisionStep(ds, readable)) == MarkedWorld(w, Latest(ds).value.decidedAt, 1);
    MarkedRunsAlike(w, steps, ds, 1);
  }

  lemma OnlyMarked(s: Status, index: Option<Index>, ds: seq<Decision>)
    requires Latest(ds).Some? && Latest(ds).value.kind == "approve" && Superseded(s, Latest(ds).value)
    requires s.decisionApplied != Latest(ds).value.decidedAt && MayBeDone(s.gates, s.branches, index)
    ensures DecisionSpec(s, index, ds) == Wrote(Marked(s, Latest(ds).value.decidedAt, 1))
  {
    hide Latest, MayBeDone, Projected, Strip;
  }

  // ---- each decision lands at most once ----

  /** The place of the newest actionable decision among the first `n`. */
  function Newest(ds: seq<Decision>, n: nat): Option<nat>
    requires n <= |ds|
  {
    if n == 0 then None else if Actionable(ds[n - 1]) then Some(n - 1) else Newest(ds, n - 1)
  }

  lemma {:induction false} NewestIsLatest(ds: seq<Decision>, n: nat)
    requires n <= |ds|
    ensures Newest(ds, n).Some? ==> Newest(ds, n).value < n && Actionable(ds[Newest(ds, n).value])
    ensures Latest(ds[..n]) == if Newest(ds, n).Some? then Some(ds[Newest(ds, n).value]) else None
  {
    hide DecisionMap, Blank;
    if n > 0 {
      NewestIsLatest(ds, n - 1);
      assert ds[..n][..n - 1] == ds[..n - 1];
    }
  }

  lemma {:induction false} NewestRises(ds: seq<Decision>, m: nat, n: nat)
    requires m <= n <= |ds| && Newest(ds, m).Some?
    ensures Newest(ds, n).Some? && Newest(ds, m).value <= Newest(ds, n).value
  {
    NewestIsLatest(ds, m);
    if m < n {
      NewestRises(ds, m, n - 1);
      NewestIsLatest(ds, n - 1);
    }
  }

  /** The file only grows while the run goes on: each reading finds a beginning of `all`, no shorter
      than `n` and than the readings before it. */
  predicate ReadsGrow(all: seq<Decision>, n: nat, steps: seq<Step>)
    decreases |steps|
  {
    steps != [] ==>
      if steps[0].DecisionStep? then steps[0].ds <= all && n <= |steps[0].ds|
          && ReadsGrow(all, |steps[0].ds|, steps[1..])
      else ReadsGrow(all, n, steps[1..])
  }

  predicate DistinctTimes(ds: seq<Decision>) {
    forall i, j :: 0 <= i < j < |ds| && Actionable(ds[i]) && Actionable(ds[j]) ==> ds[i].decidedAt != ds[j].decidedAt
  }

  predicate Lands(w: World, st: Step) {
    st.DecisionStep? && DecisionSpec(w.status, Read(w.entries, st.readable), st.ds).Wrote?
  }

  /** The decisions that landed in a run, in order, each named by its time. */
  ghost function Landings(w: World, steps: seq<Step>): seq<string>
    decreases |steps|
  {
    if steps == [] then []
    else
      (if Lands(w, steps[0]) then [Latest(steps[0].ds).value.decidedAt] else []) +
      Landings(Next(w, steps[0]), steps[1..])
  }

  lemma LandingIsMarked(w: World, st: Step)
    requires Lands(w, st)
    ensures Latest(st.ds).Some? && w.status.decisionApplied != Latest(st.ds).value.decidedAt
    ensures Next(w, st).status.decisionApplied == Latest(st.ds).value.decidedAt
  {
    hide Latest, DecisionMap, MayBeDone, Projected, Strip, IndexOf;
  }

  lemma NotLandingIsNothing(w: World, st: Step)
    requires st.DecisionStep? && !Lands(w, st)
    ensures Next(w, st) == w
  {
    hide DecisionSpec, IndexOf;
  }

  /** Landings move forward through the file: past `top`, the last one that landed. */
  lemma {:induction false} LandingsMoveOn(w: World, all: seq<Decision>, n: nat, top: Option<nat>, steps: seq<Step>)
    requires n <= |all| && DistinctTimes(all) && ReadsGrow(all, n, steps)
    requires top.Some? ==>
               && Newest(all, n).Some? && top.value <= Newest(all, n).value < |all|
               && Actionable(all[top.value]) && w.status.decisionApplied == all[top.value].decidedAt
    ensures forall t :: t in Landings(w, steps) ==>
              exists j :: 0 <= j < |all| && (top.Some? ==> top.value < j) && Actionable(all[j]) && all[j].decidedAt == t
    ensures Distinct(Landings(w, steps))
    decreases |steps|
  {
    hide Next, Actionable, Lands, Latest;
    if steps != [] {
      var st := steps[0];
      if !st.DecisionStep? {
        OthersKeepTheMark(w, st);
        NoLanding(w, st);
        LandingsMoveOn(Next(w, st), all, n, top, steps[1..]);
      } else if !Lands(w, st) {
        NotLandingIsNothing(w, st);
        ReadingKeepsTop(all, n, |st.ds|, top);
        LandingsMoveOn(w, all, |st.ds|, top, steps[1..]);
      } else {
        var m := |st.ds|;
        assert st.ds == all[..m];
        NewestIsLatest(all, m);
        LandingIsMarked(w, st);
        ReadingKeepsTop(all, n, m, top);
        var j := Newest(all, m);
        LandingsMoveOn(Next(w, st), all, m, j, steps[1..]);
        var rest := Landings(Next(w, st), steps[1..]);
        assert Landings(w, steps) == [all[j.value].decidedAt] + rest;
        assert all[j.value].decidedAt !in rest;
      }
    }
  }

  lemma NoLanding(w: World, st: Step)
    requires !st.DecisionStep?
    ensures !Lands(w, st)
  {
  }

  lemma ReadingKeepsTop(all: seq<Decision>, n: nat, m: nat, top: Option<nat>)
    requires n <= m <= |all|
    ensures top.Some? && Newest(all, n).Some? && top.value <= Newest(all, n).value ==>
              Newest(all, m).Some? && top.value <= Newest(all, m).value < |all|
  {
    NewestIsLatest(all, m);
    if Newest(all, n).Some? {
      NewestRises(all, n, m);
    }
  }

  /** Over any run whose decision file only grows, with a time of its own for each decision, no
      decision lands twice, whatever the other writers do in between. */
  lemma DecisionsLandOnce(w: World, all: seq<Decision>, steps: seq<Step>)
    requires DistinctTimes(all) && ReadsGrow(all, 0, steps)
    ensures Distinct(Landings(w, steps))
  {
    hide Landings, ReadsGrow, DistinctTimes;
    LandingsMoveOn(w, all, 0, None, steps);
  }

  // ---- what becomes of an approval ----

  /** The step reads the decision file while the guard has nothing open. */
  predicate ReadsReady(w: World, st: Step) {
    st.DecisionStep? && MayBeDone(w.status.gates, w.status.branches, Read(w.entries, st.readable))
  }

  /** The place of the first reading with nothing open, the length of the run when there is none. */
  ghost function FirstReady(w: World, steps: seq<Step>): (k: nat)
    ensures k <= |steps|
    decreases |steps|
  {
    if steps == [] || ReadsReady(w, steps[0]) then 0 else 1 + FirstReady(Next(w, steps[0]), steps[1..])
  }

  /** The index says what it should: at that place, and at no earlier one, a ready reading. */
  lemma {:induction false} FirstReadyIsFirst(w: World, steps: seq<Step>)
    ensures var k := FirstReady(w, steps);
            && (k < |steps| ==> ReadsReady(Run(w, steps[..k]), steps[k]))
            && forall i :: 0 <= i < k ==> !ReadsReady(Run(w, steps[..i]), steps[i])
    decreases |steps|
  {
    hide Next, ReadsReady;
    var k := FirstReady(w, steps);
    if k > 0 {
      var v, rest := Next(w, steps[0]), steps[1..];
      FirstReadyIsFirst(v, rest);
      forall i | 0 < i <= |steps| ensures Run(w, steps[..i]) == Run(v, rest[..i - 1]) {
        assert steps[..i][1..] == rest[..i - 1];
      }
      forall i | 0 <= i < k ensures !ReadsReady(Run(w, steps[..i]), steps[i]) {
        if i > 0 {
          assert !ReadsReady(Run(v, rest[..i - 1]), rest[i - 1]);
        }
      }
    }
  }

  lemma HeldStep(w: World, st: Step)
    requires st.DecisionStep? && Latest(st.ds).Some? && Latest(st.ds).value.kind == "approve" && !ReadsReady(w, st)
    ensures Next(w, st) == w
  {
    hide Latest, MayBeDone, Projected, Strip, IndexOf;
  }

  lemma ReadyStep(w: World, st: Step)
    requires ReadsReady(w, st) && Latest(st.ds).Some? && Latest(st.ds).value.kind == "approve"
    requires w.status.decisionApplied != Latest(st.ds).value.decidedAt
    ensures Next(w, st).status.decisionApplied == Latest(st.ds).value.decidedAt
    ensures Superseded(w.status, Latest(st.ds).value) ==>
              Next(w, st) == MarkedWorld(w, Latest(st.ds).value.decidedAt, 1)
    ensures w.status.phase != "done" ==>
              (Next(w, st).status.phase == "done" <==> !Superseded(w.status, Latest(st.ds).value))
  {
    hide Latest, MayBeDone, Projected, Strip, IndexOf;
    if w.status.phase != "done" {
      ApprovalFinishesExactly(w.status, Read(w.entries, st.readable), st.ds);
    }
  }

  /** Until the first reading with nothing open, a run that reads an approval is the run of the other
      writers. */
  lemma {:induction false} HeldUntilReady(w: World, steps: seq<Step>, ds: seq<Decision>)
    requires Latest(ds).Some? && Latest(ds).value.kind == "approve" && Reads(steps, ds)
    ensures var k := FirstReady(w, steps);
            && Run(w, steps[..k]) == Run(w, Others(steps[..k]))
            && Run(w, steps) == Run(Run(w, steps[..k]), steps[k..])
    decreases |steps|
  {
    hide Next, Latest, ReadsReady;
    var k := FirstReady(w, steps);
    if k > 0 {
      var st, rest := steps[0], steps[1..];
      assert Reads(rest, ds);
      HeldUntilReady(Next(w, st), rest, ds);
      assert steps[..k][0] == st && steps[..k][1..] == rest[..k - 1] && steps[k..] == rest[k - 1..];
      if st.DecisionStep? {
        HeldStep(w, st);
        assert Others(steps[..k]) == Others(rest[..k - 1]);
      } else {
        assert Others(steps[..k])[0] == st && Others(steps[..k])[1..] == Others(rest[..k - 1]);
      }
    } else {
      assert steps[..0] == [] && steps[0..] == steps;
    }
  }

  /** What a run does with an approval, exactly. Everything is decided at the first reading with nothing
      open. If there is none, the approval stays unmarked and the run is that of the other writers. If
      the task is then in another phase than it was made for, it is lost: the run is again that of the
      other writers, but for the mark and one history row. Otherwise it finishes the task there, if
      open. Which phases the task went through before makes no difference. */
  lemma ApprovalFate(w: World, steps: seq<Step>, ds: seq<Decision>)
    requires Latest(ds).Some? && Latest(ds).value.kind == "approve" && Reads(steps, ds)
    requires w.status.decisionApplied != Latest(ds).value.decidedAt
    ensures var k, at := FirstReady(w, steps), Latest(ds).value.decidedAt;
            && Run(w, steps).status.decisionApplied == (if k < |steps| then at else w.status.decisionApplied)
            && (k == |steps| ==> Run(w, steps) == Run(w, Others(steps)))
            && (k < |steps| ==>
                  var v := Run(w, steps[..k]);
                  && (Superseded(v.status, Latest(ds).value) ==>
                      Run(w, steps) == MarkedWorld(Run(w, Others(steps)), at, 1))
                  && (v.status.phase != "done" ==>
                        (Next(v, steps[k]).status.phase == "done" <==> !Superseded(v.status, Latest(ds).value))))
  {
    hide Next, Run, Latest, MayBeDone, IndexOf, Superseded, Others, FirstReady;
    var k, at := FirstReady(w, steps), Latest(ds).value.decidedAt;
    FirstReadyIsFirst(w, steps);
    HeldUntilReady(w, steps, ds);
    OthersKeepMark(w, steps[..k]);
    if k == |steps| {
      assert steps[..k] == steps && steps[k..] == [];
    } else {
      var v, st, rest := Run(w, steps[..k]), steps[k], steps[k + 1..];
      assert steps[k..][0] == st && steps[k..][1..] == rest;
      assert st in steps && Reads(rest, ds);
      ReadyStep(v, st);
      RunFirst(v, steps[k..]);
      var u := Next(v, st);
      assert MarkedWorld(u, at, 0) == u;
      MarkedRunsAlike(u, rest, ds, 0);
      OthersKeepMark(u, rest);
      if Superseded(v.status, Latest(ds).value) {
        MarkedRunsAlike(v, rest, ds, 1);
        OthersSplit(w, steps, k);
      }
    }
  }

  lemma RunFirst(w: World, steps: seq<Step>)
    requires steps != []
    ensures Run(w, steps) == Run(Next(w, steps[0]), steps[1..])
  {
    hide Next;
  }

  lemma {:induction false} OthersKeepMark(w: World, steps: seq<Step>)
    ensures Run(w, Others(steps)).status.decisionApplied == w.status.decisionApplied
    decreases |steps|
  {
    hide Next;
    if steps != [] {
      if steps[0].DecisionStep? {
        assert Others(steps) == Others(steps[1..]);
        OthersKeepMark(w, steps[1..]);
      } else {
        OthersKeepTheMark(w, steps[0]);
        assert Others(steps)[0] == steps[0] && Others(steps)[1..] == Others(steps[1..]);
        OthersKeepMark(Next(w, steps[0]), steps[1..]);
      }
    }
  }

  lemma {:induction false} OthersSplit(w: World, steps: seq<Step>, k: nat)
    requires k < |steps| && steps[k].DecisionStep?
    ensures Run(w, Others(steps)) == Run(Run(w, Others(steps[..k])), Others(steps[k + 1..]))
    decreases k
  {
    hide Next;
    if k > 0 {
      var rest := steps[1..];
      assert steps[..k][1..] == rest[..k - 1] && steps[k + 1..] == rest[k..];
      if steps[0].DecisionStep? {
        OthersSplit(w, rest, k - 1);
        assert Others(steps) == Others(rest) && Others(steps[..k]) == Others(rest[..k - 1]);
      } else {
        OthersSplit(Next(w, steps[0]), rest, k - 1);
        assert Others(steps)[0] == steps[0] && Others(steps)[1..] == Others(rest);
        assert Others(steps[..k])[0] == steps[0] && Others(steps[..k])[1..] == Others(rest[..k - 1]);
      }
    } else {
      assert steps[..0] == [] && Others(steps) == Others(steps[1..]);
      assert Run(w, Others([])) == w;
    }
  }

  // ---- two runs that may surprise ----

  const OPEN_BRANCH := NamedBranch("a", Branch(Val("ready"), Val("pm"), Val("r"), Val(Instant(0)), Absent, false))

  const DONE_BRANCH := NamedBranch("a", Branch(Val("done"), Val("pm"), Val("r"), Val(Instant(0)), Absent, false))

  const FINISH_BRANCH := BranchStep(BranchCommand("a", Finish, "pm", "r", [], 0))

  const REVIEW_APPROVAL := Decision("approve", "noon", "review")

  const READ_APPROVAL := DecisionStep([REVIEW_APPROVAL], true)

  /** A task with a gate section and one branch. */
  function Placed(phase: string, agent: string, branch: NamedBranch, mark: string, rows: nat): World {
    World(Status(phase, phase, Some(agent), true, [], [], None, GateMap(map[]), BranchList([branch]), [], 0, 0, 0, None,
                 mark, rows), [])
  }

  lemma TheApproval()
    ensures Latest([REVIEW_APPROVAL]) == Some(REVIEW_APPROVAL) && Strip("review") == "review" && Strip("review") != ""
  {
    hide Strip;
    assert [REVIEW_APPROVAL][0] == REVIEW_APPROVAL;
    assert "noon"[0] == 'n' && !IsSpace('n');
    assert !Blank("noon");
    StripOf("review");
  }

  lemma GuardOf(phase: string, agent: string, mark: string, rows: nat)
    ensures var s := Placed(phase, agent, OPEN_BRANCH, mark, rows).status;
            !MayBeDone(s.gates, s.branches, Read([], true))
    ensures var s := Placed(phase, agent, DONE_BRANCH, mark, rows).status;
            MayBeDone(s.gates, s.branches, Read([], true))
  {
    hide MayBeDone, IndexOf, Blank, IsName;
    BranchTexts();
    var open, closed := Placed(phase, agent, OPEN_BRANCH, mark, rows).status,
        Placed(phase, agent, DONE_BRANCH, mark, rows).status;
    assert !BranchResolved(open.branches.items[0]);
    VerdictMeaning(open.gates, open.branches, Read([], true));
    VerdictMeaning(closed.gates, closed.branches, Read([], true));
  }

  lemma BranchTexts()
    ensures IsName("a") && !Blank("pm") && !Blank("r") && !Blank("review")
  {
    assert !IsSpace("pm"[0]) && !IsSpace("r"[0]) && !IsSpace("review"[0]);
  }

  lemma HeldByBranch(phase: string, agent: string)
    ensures Next(Placed(phase, agent, OPEN_BRANCH, "", 0), READ_APPROVAL) == Placed(phase, agent, OPEN_BRANCH, "", 0)
  {
    hide Next, Latest, MayBeDone, IndexOf;
    TheApproval();
    GuardOf(phase, agent, "", 0);
    HeldStep(Placed(phase, agent, OPEN_BRANCH, "", 0), READ_APPROVAL);
  }

  lemma BranchFinished(phase: string, agent: string)
    requires phase in {"assigned", "review"}
    ensures Next(Placed(phase, agent, OPEN_BRANCH, "", 0), FINISH_BRANCH) == Placed(phase, agent, DONE_BRANCH, "", 1)
  {
    hide Blank, IsName, Projected;
    BranchTexts();
    var s, c := Placed(phase, agent, OPEN_BRANCH, "", 0).status, FINISH_BRANCH.b;
    assert BranchRecordOk(OPEN_BRANCH);
    assert PutBranch([OPEN_BRANCH], "a", BranchRecord("done", "pm", "r", 0, [])) == [DONE_BRANCH];
    NothingBlocked(phase, agent, "", 0);
  }

  /** The finished branch is projected onto no wait and no phase. */
  lemma NothingBlocked(phase: string, agent: string, mark: string, rows: nat)
    requires phase != "blocked"
    ensures var s := Placed(phase, agent, DONE_BRANCH, mark, rows).status; Projected(s) == s
  {
    assert [DONE_BRANCH][..0] == [] && BranchWaits([]) == [] && GlobalWaits([]) == [];
    assert [DONE_BRANCH][0] == DONE_BRANCH;
    assert BranchWaits([DONE_BRANCH]) == [];
  }

  lemma Moved(phase: string, agent: string, mark: string, rows: nat, phase': string, agent': string)
    requires phase' !in {"blocked", "done"} && agent' != "done"
    ensures Next(Placed(phase, agent, DONE_BRANCH, mark, rows), ForceStep(agent', phase', true)) ==
            Placed(phase', agent', DONE_BRANCH, mark, rows + 1)
  {
    hide Projected, MayBeDone, IndexOf;
    NothingBlocked(phase', agent', mark, rows + 1);
  }

  /** An approval can be lost. Made in review and held by a branch, it is read while the task is for a
      moment elsewhere; back in review with nothing open, it finishes nothing, now or later. */
  lemma ApprovalCanBeLost() returns (w: World, steps: seq<Step>, ds: seq<Decision>)
    ensures Latest(ds).Some? && Latest(ds).value.kind == "approve" && MadeFor(w.status, Latest(ds).value)
    ensures Next(w, DecisionStep(ds, true)) == w && w.status.phase == "review" && Reads(steps, ds)
    ensures var v := Run(w, steps);
            && v.status.phase == "review" && MayBeDone(v.status.gates, v.status.branches, Read(v.entries, true))
            && Next(v, DecisionStep(ds, true)) == v
  {
    hide Next, MayBeDone, Latest, IndexOf, Strip;
    TheApproval();
    ds := [REVIEW_APPROVAL];
    w := Placed("review", "reviewer", OPEN_BRANCH, "", 0);
    var away, back := ForceStep("dev", "assigned", true), ForceStep("reviewer", "review", true);
    steps := [FINISH_BRANCH, away, READ_APPROVAL, back];
    HeldByBranch("review", "reviewer");
    BranchFinished("review", "reviewer");
    Moved("review", "reviewer", "", 1, "assigned", "dev");
    var there := Placed("assigned", "dev", DONE_BRANCH, "", 2);
    GuardOf("assigned", "dev", "", 2);
    ReadyStep(there, READ_APPROVAL);
    assert MarkedWorld(there, "noon", 1) == Placed("assigned", "dev", DONE_BRANCH, "noon", 3);
    Moved("assigned", "dev", "noon", 3, "review", "reviewer");
    FourSteps(w, steps);
    GuardOf("review", "reviewer", "noon", 4);
    SpentStep(Placed("review", "reviewer", DONE_BRANCH, "noon", 4), READ_APPROVAL);
  }

  lemma FourSteps(w: World, steps: seq<Step>)
    requires |steps| == 4
    ensures Run(w, steps) == Next(Next(Next(Next(w, steps[0]), steps[1]), steps[2]), steps[3])
  {
    hide Next;
    var v1 := Next(w, steps[0]);
    var v2 := Next(v1, steps[1]);
    var v3 := Next(v2, steps[2]);
    RunFirst(w, steps);
    RunFirst(v1, steps[1..]);
    RunFirst(v2, steps[1..][1..]);
    RunFirst(v3, steps[1..][1..][1..]);
  }

  /** And an approval can finish a task that had left its phase: made for review and read in assigned
      while a branch is open, it is only held, and lands once the task is in review again. */
  lemma ApprovalCanOutliveItsPhase() returns (w: World, steps: seq<Step>, ds: seq<Decision>)
    ensures Latest(ds).Some? && Latest(ds).value.kind == "approve" && Superseded(w.status, Latest(ds).value)
    ensures steps != [] && steps[0] == DecisionStep(ds, true) && w.status.phase == "assigned" && Reads(steps, ds)
    ensures Run(w, steps).status.phase == "done"
  {
    hide Next, MayBeDone, Latest, IndexOf, Strip;
    TheApproval();
    ds := [REVIEW_APPROVAL];
    w := Placed("assigned", "dev", OPEN_BRANCH, "", 0);
    steps := [READ_APPROVAL, FINISH_BRANCH, ForceStep("reviewer", "review", true), READ_APPROVAL];
    HeldByBranch("assigned", "dev");
    BranchFinished("assigned", "dev");
    Moved("assigned", "dev", "", 1, "review", "reviewer");
    GuardOf("review", "reviewer", "", 2);
    ReadyStep(Placed("review", "reviewer", DONE_BRANCH, "", 2), READ_APPROVAL);
    FourSteps(w, steps);
  }

  // ---- and the task can always be made ready ----

  function GateSteps(cs: seq<GateWriter.Command>, evidence: set<string>, now: int): (r: seq<Step>)
    ensures |r| == |cs| && forall i :: 0 <= i < |r| ==> r[i] == GateStep(cs[i], evidence, now, true)
  {
    seq(|cs|, i requires 0 <= i < |cs| => GateStep(cs[i], evidence, now, true))
  }

  function ContextOf(w: World, evidence: set<string>, now: int): GateWriter.Context {
    GateWriter.Context(w.status.phase, w.status.gates, Some(IndexOf(w.entries)), evidence, now)
  }

  /** A run of accepted gate commands changes the gates as it says and nothing else the guard or the
      reconciler reads. */
  lemma {:induction false} GateRunIs(w: World, cs: seq<GateWriter.Command>, evidence: set<string>, now: int,
                                     last: Gates)
    requires GateProgress.Runs(ContextOf(w, evidence, now), cs, last)
    ensures var v := Run(w, GateSteps(cs, evidence, now));
            && GateWriter.Stored(v.status.gates) == last
            && (!w.status.gates.GatesNotAMap? ==> !v.status.gates.GatesNotAMap?)
            && v.status.phase == w.status.phase && v.status.branches == w.status.branches
            && v.status.decisionApplied == w.status.decisionApplied && v.entries == w.entries
    decreases |cs|
  {
    hide GateWriter.Decide, IndexOf;
    var steps := GateSteps(cs, evidence, now);
    if cs != [] {
      var v := Next(w, steps[0]);
      var d := GateWriter.Decide(ContextOf(w, evidence, now), cs[0]);
      assert v == w.(status := w.status.(gates := GateMap(d.gates), historyRows := w.status.historyRows + 1));
      assert ContextOf(v, evidence, now) == ContextOf(w, evidence, now).(table := GateMap(d.gates));
      GateRunIs(v, cs[1..], evidence, now, last);
      assert steps[1..] == GateSteps(cs[1..], evidence, now);
    } else {
      assert steps == [];
    }
  }

  predicate BranchesSettled(t: BranchTable) {
    t.NoBranches? || (t.BranchList? && t.items != [] && forall b :: b in t.items ==> BranchResolved(b))
  }

  /** From any sound open task whose branches are settled and whose open gates have their grants, a held
      approval for its phase can be brought to land: one pass for each open gate, and then the next
      reading finishes the task. */
  lemma HeldApprovalCanLand(w: World, ds: seq<Decision>, evidence: set<string>, now: int)
    returns (cs: seq<GateWriter.Command>)
    requires Sound(w) && GateRules.Writable(ContextOf(w, evidence, now)) && w.status.phase != "done"
    requires GateProgress.GrantsInPlace(ContextOf(w, evidence, now), GateWriter.Stored(w.status.gates),
                                        IndexOf(w.entries))
    requires BranchesSettled(w.status.branches)
    requires Latest(ds).Some? && Latest(ds).value.kind == "approve" && MadeFor(w.status, Latest(ds).value)
    requires w.status.decisionApplied != Latest(ds).value.decidedAt
    ensures |cs| == |GateProgress.OpenGates(GateWriter.Stored(w.status.gates), IndexOf(w.entries))|
            && forall i :: 0 <= i < |cs| ==> cs[i].ask.Pass?
    ensures Next(Run(w, GateSteps(cs, evidence, now)), DecisionStep(ds, true)).status.phase == "done"
  {
    hide Run, Latest, MayBeDone, DecisionSpec, Strip, IndexOf, GateResolved, GateRules.GatesSound, GateRules.Writable,
         GateProgress.Runs, GateProgress.GrantsInPlace, BranchSectionOk, BranchResolved;
    var x := ContextOf(w, evidence, now);
    var last;
    cs, last := GateProgress.EveryGateCanBeResolved(x, w.entries);
    GateRunIs(w, cs, evidence, now, last);
    var v := Run(w, GateSteps(cs, evidence, now));
    AllClosed(last, IndexOf(w.entries));
    VerdictMeaning(v.status.gates, v.status.branches, Some(IndexOf(v.entries)));
    ApprovalFinishesExactly(v.status, Read(v.entries, true), ds);
  }

  lemma AllClosed(gates: Gates, ix: Index)
    requires GateProgress.OpenGates(gates, ix) == {}
    ensures forall n :: n in gates ==> GateResolved(gates[n], Some(ix))
  {
    hide GateResolved;
    forall n | n in gates ensures GateResolved(gates[n], Some(ix)) {
      assert n !in GateProgress.OpenGates(gates, ix);
    }
  }
}
