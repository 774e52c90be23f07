/** Completion gates and branches: the one answer to "may this task become done now?"
    (scripts/completion-guard.rb). */
module CompletionGuard {
  import opened Text
  import opened AuthorizationLedger
  import opened LedgerIndex

  /** A `ran` record (`who` is its by field); `extra` says it holds a field other than by, ref and url. */
  datatype Ran = Ran(who: Field<string>, ref: Field<string>, url: Field<string>, extra: bool)

  datatype Gate =
    | NotAMap
    | Gate(
        status: Field<string>, actor: Field<string>, reason: Field<string>, updatedAt: Field<Stamp>,
        evidence: seq<string>, binding: Field<string>, refs: Field<seq<string>>, through: Field<string>,
        after: Field<seq<string>>, requiresRecord: Field<bool>, ran: Field<Ran>)

  type Gates = map<string, Gate>

  /** The `completion_gates` key: missing, not a map, or the gates by name. */
  datatype GateTable = NoGates | GatesNotAMap | GateMap(gates: Gates)

  datatype Branch =
    | NotABranch
    | Branch(state: Field<string>, actor: Field<string>, reason: Field<string>, updatedAt: Field<Stamp>,
             waitingFor: Field<seq<string>>, extra: bool)

  /** Branches keep the order in which they were declared. */
  datatype NamedBranch = NamedBranch(name: string, branch: Branch)

  datatype BranchTable = NoBranches | BranchesNotAMap | BranchList(items: seq<NamedBranch>)

  // ---- run records ----

  predicate HttpsUrl(s: string) {
    && |s| > 8 && s[..8] == "https://"
    && forall i :: 8 <= i < |s| ==> !IsSpace(s[i])
  }

  predicate RanOk(f: Field<Ran>) {
    && f.Val?
    && !f.value.extra
    && NonBlank(f.value.who)
    && (!f.value.ref.Absent? || !f.value.url.Absent?)
    && (f.value.ref.Absent? || NonBlank(f.value.ref))
    && (f.value.url.Absent? || (f.value.url.Val? && HttpsUrl(f.value.url.value)))
  }

  predicate NeedsRecord(g: Gate) { g.Gate? && g.requiresRecord == Val(true) }

  predicate MissingRunRecord(g: Gate) {
    NeedsRecord(g) && g.status == Val("pass") && !RanOk(g.ran)
  }

  // ---- one gate ----

  predicate Settled(g: Gate) { g.Gate? && (g.status == Val("pass") || g.status == Val("na")) }

  predicate Resolved(g: Gate) {
    && Settled(g)
    && !MissingRunRecord(g)
    && NonBlank(g.actor) && NonBlank(g.reason) && NonBlankStamp(g.updatedAt)
  }

  predicate Bound(g: Gate) { g.Gate? && !g.binding.Absent? }

  predicate AuthorizationSatisfied(g: Gate, index: Option<Index>)
    requires g.Gate?
  {
    && g.binding.Val? && g.binding.value in ACTIONS
    && index.Some?
    && if g.status == Val("na") then g.refs.Absent? && g.through.Absent?
       else
         && g.refs.Val? && g.refs.value != []
         && HasEntry(index.value, g.through)
         && TimeOf(g.updatedAt).Some?
         && forall ref :: ref in g.refs.value ==>
              ValidGrant(index.value, Val(ref), g.binding.value, TimeOf(g.updatedAt), g.through)
  }

  predicate GateResolved(g: Gate, index: Option<Index>) {
    Resolved(g) && (Bound(g) ==> AuthorizationSatisfied(g, index))
  }

  // ---- branches ----

  predicate BranchResolved(b: NamedBranch) {
    && IsName(b.name)
    && b.branch.Branch?
    && (b.branch.state == Val("done") || b.branch.state == Val("na"))
    && b.branch.waitingFor.Absent?
    && NonBlank(b.branch.actor) && NonBlank(b.branch.reason) && NonBlankStamp(b.branch.updatedAt)
  }

  // ---- the verdict ----

  datatype Label = GateLabel(name: string) | WholeGates | BranchLabel(name: string) | WholeBranches

  function UnresolvedGates(t: GateTable, index: Option<Index>): set<Label> {
    match t
    case NoGates => {}
    case GatesNotAMap => {WholeGates}
    case GateMap(gates) => set n | n in gates && !GateResolved(gates[n], index) :: GateLabel(n)
  }

  function UnresolvedBranches(t: BranchTable): set<Label> {
    match t
    case NoBranches => {}
    case BranchesNotAMap => {WholeBranches}
    case BranchList(items) =>
      if items == [] then {WholeBranches}
      else set b | b in items && !BranchResolved(b) :: BranchLabel(b.name)
  }

  /** The names that keep a task from being done; it may be done when there are none. */
  function Unresolved(gates: GateTable, branches: BranchTable, index: Option<Index>): set<Label> {
    UnresolvedGates(gates, index) + UnresolvedBranches(branches)
  }

  predicate MayBeDone(gates: GateTable, branches: BranchTable, index: Option<Index>) {
    Unresolved(gates, branches, index) == {}
  }

  /** What an empty verdict means, gate by gate and branch by branch. */
  lemma VerdictMeaning(gates: GateTable, branches: BranchTable, index: Option<Index>)
    ensures MayBeDone(gates, branches, index) <==>
              && (gates.NoGates? || (gates.GateMap?
                                     && forall n :: n in gates.gates ==> GateResolved(gates.gates[n], index)))
              && (branches.NoBranches?
                  || (branches.BranchList? && branches.items != []
                      && forall b :: b in branches.items ==> BranchResolved(b)))
  {
    hide GateResolved, BranchResolved;
    if gates.GateMap? {
      forall n | n in gates.gates && !GateResolved(gates.gates[n], index)
        ensures GateLabel(n) in Unresolved(gates, branches, index) {}
    }
    if branches.BranchList? && branches.items != [] {
      forall b | b in branches.items && !BranchResolved(b)
        ensures BranchLabel(b.name) in Unresolved(gates, branches, index) {}
    }
    assert gates.GatesNotAMap? ==> WholeGates in Unresolved(gates, branches, index);
    assert branches.BranchesNotAMap? ==> WholeBranches in Unresolved(gates, branches, index);
    assert branches == BranchList([]) ==> WholeBranches in Unresolved(gates, branches, index);
  }

  /** Failing closed: what a task may do with an unreadable ledger it may do with any ledger. */
  lemma UnreadableLedgerIsStrictest(gates: GateTable, branches: BranchTable, index: Index)
    ensures MayBeDone(gates, branches, None) ==> MayBeDone(gates, branches, Some(index))
    ensures MayBeDone(gates, branches, None) && gates.GateMap? ==>
              forall n :: n in gates.gates ==> !Bound(gates.gates[n])
  {
    hide Resolved, BranchResolved;
    VerdictMeaning(gates, branches, None);
    VerdictMeaning(gates, branches, Some(index));
  }

  /** A recorded judgement never changes: whatever a later grant or revoke says, a settled gate
      whose snapshot the ledger already holds is resolved after any accepted extension exactly
      when it was before. */
  lemma RecordedJudgementStable(g: Gate, es: seq<Entry>, ext: seq<Entry>)
    requires Accepted(es + ext)
    requires g.Gate? && (Bound(g) && g.status == Val("pass") ==> HasEntry(IndexOf(es), g.through))
    ensures Accepted(es)
    ensures GateResolved(g, Some(IndexOf(es + ext))) == GateResolved(g, Some(IndexOf(es)))
  {
    hide IdNumber, IndexOf, ValidGrant, MissingRunRecord;
    AcceptedPrefix(es + ext, |es|);
    assert (es + ext)[..|es|] == es;
    if Bound(g) && g.status == Val("pass") && g.refs.Val? && g.binding.Val? {
      EntryStays(es, ext, g.through);
      forall ref | ref in g.refs.value {
        SnapshotStable(es, ext, Val(ref), g.binding.value, TimeOf(g.updatedAt), g.through);
      }
    }
  }
}
