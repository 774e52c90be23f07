/** The validator of stored state: what it accepts, decided by loops as it does, and that every
    state the writers reach is accepted (validate_completion_gates, validate_gate_ordering,
    validate_branches of validate-yaml.rb). */
module StoredState {
  import opened Text
  import opened AuthorizationLedger
  import opened LedgerIndex
  import opened CompletionGuard
  import opened GateOrdering
  import opened GateRules
  import opened BranchProjection
  import opened StatusWriters
  import GateWriter
  import TaskRules
  import TaskRuns

  datatype Problem =
    | BadGateName(gate: string) | GateNotAMap(gate: string) | BadStatus(gate: string) | MissingMetadata(gate: string)
    | BadEvidence(gate: string) | BadBinding(gate: string) | BadReferences(gate: string) | BadSnapshot(gate: string)
      | UnboundReferences(gate: string)
    | ReferencesOnNa(gate: string) | MissingReferences(gate: string) | BadRunRecord(gate: string) | GatesNotMapped
    | BadOrdering(fault: OrderingFault) | LedgerUnreadable | PassedTooEarly(gate: string)
    | UnknownSnapshot(gate: string) | InvalidReference(gate: string, ref: string) | FalseDone
    | BadBranches | BadBranch(name: string) | WaitsNotCurrent | PhaseDoesNotFit

  // ---- one gate ----

  /** The shape of a stored gate, whatever the ledger says. */
  predicate GateShapeValid(n: string, g: Gate) {
    && IsName(n)
    && g.Gate?
    && (g.status == Val("pending") || g.status == Val("pass") || g.status == Val("na"))
    && (Settled(g) ==> NonBlank(g.actor) && NonBlank(g.reason) && NonBlankStamp(g.updatedAt))
    && (Bound(g) ==> g.binding.Val? && g.binding.value in ACTIONS)
    && (forall e :: e in g.evidence ==> GateWriter.EvidenceId(e))
    && (g.refs.Absent? || (g.refs.Val? && forall ref :: ref in g.refs.value ==> IdNumber(Val(ref)).Some?))
    && (g.through.Absent? || IdNumber(g.through).Some?)
    && (!Bound(g) ==> g.refs.Absent? && g.through.Absent?)
    && (Bound(g) && g.status == Val("na") ==> g.refs.Absent? && g.through.Absent?)
    && (Bound(g) && g.status == Val("pass") ==> g.refs.Val? && g.refs.value != [] && !g.through.Absent?)
    && GateWriter.RunRecordOk(g) && !MissingRunRecord(g)
  }

  function AuthorizationProblems(n: string, g: Gate): seq<Problem>
    requires g.Gate?
  {
    (if Bound(g) && !(g.binding.Val? && g.binding.value in ACTIONS) then [BadBinding(n)] else []) +
    (if !g.refs.Absent? && !(g.refs.Val? && forall ref :: ref in g.refs.value ==> IdNumber(Val(ref)).Some?)
     then [BadReferences(n)] else []) +
    (if !g.through.Absent? && IdNumber(g.through).None? then [BadSnapshot(n)] else []) +
    (if !Bound(g) then (if g.refs.Absent? && g.through.Absent? then [] else [UnboundReferences(n)])
     else if g.status == Val("na") then (if g.refs.Absent? && g.through.Absent? then [] else [ReferencesOnNa(n)])
     else if g.status == Val("pass") then (if g.refs.Val? && g.refs.value != [] && !g.through.Absent? then []
                                           else [MissingReferences(n)])
     else [])
  }

  /** What the validator has checked of a gate after the first `i` evidence ids. */
  predicate EvidenceValidTo(n: string, g: Gate, i: nat)
    requires g.Gate? && i <= |g.evidence|
  {
    && IsName(n)
    && (g.status == Val("pending") || g.status == Val("pass") || g.status == Val("na"))
    && (Settled(g) ==> NonBlank(g.actor) && NonBlank(g.reason) && NonBlankStamp(g.updatedAt))
    && forall k :: 0 <= k < i ==> GateWriter.EvidenceId(g.evidence[k])
  }

  /** Reports nothing about a gate exactly when its shape is valid. */
  method ValidateGate(n: string, g: Gate) returns (problems: seq<Problem>)
    ensures problems == [] <==> GateShapeValid(n, g)
  {
    hide IdNumber, IsName, Blank, RanOk, ACTIONS;
    problems := if IsName(n) then [] else [BadGateName(n)];
    if g.NotAMap? {
      return problems + [GateNotAMap(n)];
    }
    if g.status != Val("pending") && g.status != Val("pass") && g.status != Val("na") {
      problems := problems + [BadStatus(n)];
    } else if g.status != Val("pending") && !(NonBlank(g.actor) && NonBlank(g.reason) && NonBlankStamp(g.updatedAt)) {
      problems := problems + [MissingMetadata(n)];
    }
    for i := 0 to |g.evidence|
      invariant problems == [] <==> EvidenceValidTo(n, g, i)
    {
      if !GateWriter.EvidenceId(g.evidence[i]) {
        problems := problems + [BadEvidence(n)];
      }
    }
    problems := problems + AuthorizationProblems(n, g);
    if !GateWriter.RunRecordOk(g) || MissingRunRecord(g) {
      problems := problems + [BadRunRecord(n)];
    }
  }

  ghost predicate ShapesValid(gates: Gates) {
    forall n :: n in gates ==> GateShapeValid(n, gates[n])
  }

  method ValidateGateShapes(gates: Gates) returns (problems: seq<Problem>)
    ensures problems == [] <==> ShapesValid(gates)
  {
    hide GateShapeValid;
    problems := [];
    var todo := gates.Keys;
    while todo != {}
      invariant todo <= gates.Keys
      invariant problems == [] <==> forall n :: n in gates && n !in todo ==> GateShapeValid(n, gates[n])
    {
      var n :| n in todo;
      todo := todo - {n};
      var found := ValidateGate(n, gates[n]);
      problems := problems + found;
    }
  }

  // ---- orderings ----

  predicate Passed(gates: Gates, n: string) { n in gates && gates[n].Gate? && gates[n].status == Val("pass") }

  /** Orderings are well formed, and what a passed gate waits on is resolved, judged by the ledger. */
  ghost predicate OrderingValid(gates: Gates, ledger: Option<Index>) {
    && OrderingOk(gates)
    && forall n, d :: Passed(gates, n) && d in After(gates, n) ==> d in gates && GateResolved(gates[d], ledger)
  }

  predicate BoundWait(gates: Gates, n: string) {
    Passed(gates, n) && GateWriter.HasBoundWait(gates, gates[n])
  }

  /** Reads the ledger only when some passed gate waits on a bound one; nothing to report exactly
      when the orderings are valid against it. */
  method ValidateGateOrdering(gates: Gates, ledger: Option<Index>) returns (problems: seq<Problem>)
    ensures problems == [] <==> OrderingValid(gates, ledger)
  {
    hide OrderingOk, GateResolved, Resolved, GateWriter.HasBoundWait;
    var faults := OrderingErrors(gates);
    if faults != [] {
      return [BadOrdering(faults[0])];
    }
    var bound := exists n :: n in gates && BoundWait(gates, n);
    if bound && ledger.None? {
      BoundWaitNeedsLedger(gates);
      return [LedgerUnreadable];
    }
    var index := if bound then ledger else None;
    problems := [];
    var todo := gates.Keys;
    while todo != {}
      invariant todo <= gates.Keys
      invariant problems == [] <==>
                  forall n :: Passed(gates, n) && n !in todo ==> UnresolvedDependencies(gates, gates[n], index) == {}
    {
      var n :| n in todo;
      todo := todo - {n};
      if Passed(gates, n) && UnresolvedDependencies(gates, gates[n], index) != {} {
        problems := problems + [PassedTooEarly(n)];
      }
    }
    JudgedAlike(gates, ledger, index);
  }

  lemma BoundWaitNeedsLedger(gates: Gates)
    requires exists n :: n in gates && BoundWait(gates, n)
    ensures !OrderingValid(gates, None)
  {
    hide OrderingOk, Resolved, AuthorizationSatisfied;
    var n :| n in gates && BoundWait(gates, n);
    var d :| d in GateAfter(gates[n]) && d in gates && Bound(gates[d]);
    assert d in After(gates, n);
    UnreadableBound(gates[d]);
  }

  lemma JudgedAlike(gates: Gates, ledger: Option<Index>, index: Option<Index>)
    requires OrderingOk(gates)
    requires index == if exists n :: n in gates && BoundWait(gates, n) then ledger else None
    requires index.None? ==> (exists n :: n in gates && BoundWait(gates, n)) ==> ledger.None?
    requires (exists n :: n in gates && BoundWait(gates, n)) ==> ledger.Some?
    ensures (forall n :: Passed(gates, n) ==> UnresolvedDependencies(gates, gates[n], index) == {}) <==>
              OrderingValid(gates, ledger)
  {
    hide OrderingOk, Resolved, AuthorizationSatisfied;
    forall n | Passed(gates, n)
      ensures UnresolvedDependencies(gates, gates[n], index) == {} <==>
                forall d :: d in After(gates, n) ==> d in gates && GateResolved(gates[d], ledger)
    {
      forall d | d in After(gates, n)
        ensures d !in UnresolvedDependencies(gates, gates[n], index) <==> d in gates && GateResolved(gates[d], ledger)
      {
        if index.None? && d in gates {
          assert !BoundWait(gates, n);
        }
      }
    }
  }

  // ---- references against the ledger ----

  predicate ReferencesHold(g: Gate, ix: Index) {
    Bound(g) && g.status == Val("pass") && g.binding.Val? && g.binding.value in ACTIONS && g.refs.Val?
      && !g.through.Absent? ==>
      && HasEntry(ix, g.through)
      && forall ref :: ref in g.refs.value && IdNumber(Val(ref)).Some? ==>
           ValidGrant(ix, Val(ref), g.binding.value, TimeOf(g.updatedAt), g.through)
  }

  ghost predicate AuthorizationsValid(gates: Gates, ix: Index) {
    forall n :: n in gates ==> ReferencesHold(gates[n], ix)
  }

  method ValidateAuthorizations(gates: Gates, ix: Index) returns (problems: seq<Problem>)
    ensures problems == [] <==> AuthorizationsValid(gates, ix)
  {
    hide IdNumber, ValidGrant, HasEntry, ACTIONS;
    problems := [];
    var todo := gates.Keys;
    while todo != {}
      invariant todo <= gates.Keys
      invariant problems == [] <==> forall n :: n in gates && n !in todo ==> ReferencesHold(gates[n], ix)
    {
      var n :| n in todo;
      todo := todo - {n};
      var found := ValidateReferences(n, gates[n], ix);
      problems := problems + found;
    }
  }

  method ValidateReferences(n: string, g: Gate, ix: Index) returns (problems: seq<Problem>)
    ensures problems == [] <==> ReferencesHold(g, ix)
  {
    hide IdNumber, ValidGrant, HasEntry, ACTIONS;
    problems := [];
    if Bound(g) && g.status == Val("pass") && g.binding.Val? && g.binding.value in ACTIONS && g.refs.Val?
        && !g.through.Absent? {
      if !HasEntry(ix, g.through) {
        return [UnknownSnapshot(n)];
      }
      for i := 0 to |g.refs.value|
        invariant problems == [] <==> forall k :: 0 <= k < i && IdNumber(Val(g.refs.value[k])).Some? ==>
                                        ValidGrant(ix, Val(g.refs.value[k]), g.binding.value, TimeOf(g.updatedAt),
                                                   g.through)
      {
        var ref := g.refs.value[i];
        if IdNumber(Val(ref)).Some? && !ValidGrant(ix, Val(ref), g.binding.value, TimeOf(g.updatedAt), g.through) {
          problems := problems + [InvalidReference(n, ref)];
        }
      }
    }
  }

  // ---- branches ----

  method ValidateBranches(s: Status) returns (problems: seq<Problem>)
    ensures problems == [] <==> BranchSectionOk(s)
  {
    hide BranchRecordOk, BranchOnly, BranchWaits, OnlyBlocked, GlobalWaits;
    problems := [];
    if s.branches.NoBranches? {
      return;
    }
    if s.branches.BranchesNotAMap? || s.branches.items == [] {
      return [BadBranches];
    }
    var items := s.branches.items;
    for i := 0 to |items|
      invariant problems == [] <==> forall k :: 0 <= k < i ==> BranchRecordOk(items[k])
    {
      if !BranchRecordOk(items[i]) {
        problems := problems + [BadBranch(items[i].name)];
      }
    }
    if multiset(BranchOnly(s.waitingFor)) != multiset(BranchWaits(items)) {
      problems := problems + [WaitsNotCurrent];
    }
    if OnlyBlocked(s.branches) && s.phase !in OVERRIDE_PHASES {
      if s.phase != "blocked" || s.ready {
        problems := problems + [PhaseDoesNotFit];
      }
    } else if s.phase == "blocked" && CanResume(s) {
      problems := problems + [PhaseDoesNotFit];
    }
  }

  // ---- the whole status ----

  /** What the validator accepts: gate shapes, orderings, references, branches, and no false done. */
  ghost predicate StatusValid(s: Status, ix: Index) {
    && !s.gates.GatesNotAMap?
    && ShapesValid(GateWriter.Stored(s.gates))
    && OrderingValid(GateWriter.Stored(s.gates), Some(ix))
    && AuthorizationsValid(GateWriter.Stored(s.gates), ix)
    && BranchSectionOk(s)
    && (s.phase == "done" || s.state == "done" ==> MayBeDone(s.gates, s.branches, Some(ix)))
  }

  method ValidateStatus(s: Status, ix: Index) returns (problems: seq<Problem>)
    ensures problems == [] <==> StatusValid(s, ix)
  {
    hide ShapesValid, OrderingValid, AuthorizationsValid, BranchSectionOk, MayBeDone;
    problems := if s.gates.GatesNotAMap? then [GatesNotMapped] else [];
    var gates := GateWriter.Stored(s.gates);
    var shapes := ValidateGateShapes(gates);
    var orderings := ValidateGateOrdering(gates, Some(ix));
    var references := ValidateAuthorizations(gates, ix);
    var branches := ValidateBranches(s);
    problems := problems + shapes + orderings + references + branches;
    if (s.phase == "done" || s.state == "done") && !MayBeDone(s.gates, s.branches, Some(ix)) {
      problems := problems + [FalseDone];
    }
  }

  // ---- sound tasks are valid ----

  lemma SoundGateIsValid(n: string, g: Gate, ix: Index)
    requires GateSound(n, g, ix)
    ensures GateShapeValid(n, g) && ReferencesHold(g, ix)
  {
    hide IdNumber, IsName, Blank, ValidGrant, RanOk, ACTIONS;
    NumberedIsText(g.through);
  }

  lemma NumberedIsText(id: Field<string>)
    ensures IdNumber(id).Some? ==> id.Val?
  {
  }

  lemma SoundTaskIsValid(s: Status, es: seq<Entry>)
    requires TaskRules.TaskSound(s, es)
    ensures StatusValid(s, IndexOf(es))
  {
    hide GateSound, GateShapeValid, ReferencesHold, OrderingOk, GateResolved, IndexOf, Accepted, BranchSectionOk,
         MayBeDone;
    var gates, ix := GateWriter.Stored(s.gates), IndexOf(es);
    forall n | n in gates ensures GateShapeValid(n, gates[n]) && ReferencesHold(gates[n], ix) {
      SoundGateIsValid(n, gates[n], ix);
    }
    forall n, d | Passed(gates, n) && d in After(gates, n) ensures d in gates && GateResolved(gates[d], Some(ix)) {
      assert WaitsResolved(gates, n, ix);
    }
  }

  // ---- and valid tasks are sound ----

  lemma ValidGateIsSound(n: string, g: Gate, ix: Index)
    requires GateShapeValid(n, g) && ReferencesHold(g, ix)
    ensures GateSound(n, g, ix)
  {
    hide IdNumber, IsName, Blank, RanOk, ACTIONS, HasEntry, GateWriter.EvidenceId, LedgerIndex.RevokesOf;
    if Bound(g) && g.status == Val("pass") {
      var ref := g.refs.value[0];
      assert ValidGrant(ix, Val(ref), g.binding.value, TimeOf(g.updatedAt), g.through);
    }
  }

  /** What the validator accepts is exactly what the writers keep: against a ledger that is itself accepted, a
      status draws no report if and only if it is sound. */
  lemma ValidExactlySound(s: Status, es: seq<Entry>)
    requires Accepted(es) && s.state == s.phase
    ensures StatusValid(s, IndexOf(es)) <==> TaskRules.TaskSound(s, es)
  {
    hide GateSound, GateShapeValid, ReferencesHold, OrderingOk, GateResolved, IndexOf, Accepted, BranchSectionOk,
         MayBeDone;
    var gates, ix := GateWriter.Stored(s.gates), IndexOf(es);
    if TaskRules.TaskSound(s, es) {
      SoundTaskIsValid(s, es);
    }
    if StatusValid(s, ix) {
      forall n | n in gates ensures GateSound(n, gates[n], ix) {
        assert GateShapeValid(n, gates[n]) && ReferencesHold(gates[n], ix);
        ValidGateIsSound(n, gates[n], ix);
      }
      forall n | n in gates && gates[n].Gate? && gates[n].status == Val("pass") ensures WaitsResolved(gates, n, ix) {
        assert Passed(gates, n);
      }
    }
  }

  /** So the writers may take over any task the validator accepts, and it stays accepted over every run. */
  lemma ValidStaysValid(w: TaskRuns.World, steps: seq<TaskRuns.Step>)
    requires Accepted(w.entries) && w.status.state == w.status.phase && StatusValid(w.status, IndexOf(w.entries))
    requires forall i :: 0 <= i < |steps| ==> TaskRuns.StepAllowed(steps[i])
    ensures StatusValid(TaskRuns.Run(w, steps).status, IndexOf(TaskRuns.Run(w, steps).entries))
  {
    hide StatusValid, TaskRules.TaskSound, TaskRuns.Run, TaskRuns.StepAllowed, IndexOf, Accepted;
    ValidExactlySound(w.status, w.entries);
    TaskRuns.RunsStaySound(w, steps);
    var v := TaskRuns.Run(w, steps);
    SoundTaskIsValid(v.status, v.entries);
  }

  /** The validator has nothing to report about any state the writers reach from a fresh task, against
      the ledger as it is then. */
  lemma ReachableStateIsValid(w: TaskRuns.World, steps: seq<TaskRuns.Step>)
    requires TaskRuns.Fresh(w) && forall i :: 0 <= i < |steps| ==> TaskRuns.StepAllowed(steps[i])
    ensures StatusValid(TaskRuns.Run(w, steps).status, IndexOf(TaskRuns.Run(w, steps).entries))
  {
    hide StatusValid, TaskRules.TaskSound, TaskRuns.Run, TaskRuns.StepAllowed, IndexOf;
    TaskRuns.FreshIsSound(w);
    TaskRuns.RunsStaySound(w, steps);
    var v := TaskRuns.Run(w, steps);
    SoundTaskIsValid(v.status, v.entries);
  }
}
