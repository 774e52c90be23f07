/** What a gate command leaves in the gate it names, and what a binding asked for at the declaration is
    worth for the rest of the task (scripts/update-completion-gate.rb). */
module GateContents {
  import opened Text
  import opened AuthorizationLedger
  import opened LedgerIndex
  import opened CompletionGuard
  import opened GateOrdering
  import opened GatePlan
  import opened GatePlanRules
  import opened GateRules
  import opened GateWriter
  import opened StatusWriters
  import opened TaskRuns
  import RetryRuns
  import opened BranchProjection
  import PlanRetry

  // ---- one command ----

  /** The reason as stored: none when none was given. */
  predicate Because(g: Gate, reason: string) {
    g.Gate? && g.reason == (if reason == "" then Absent else Val(reason))
  }

  /** A declared gate is pending and holds what was asked for: the binding, the waits, the record. */
  lemma DeclareHolds(x: Context, c: Command)
    requires Decide(x, c).Written? && c.ask.Declare?
    ensures var g := Decide(x, c).gates[c.gate];
            && c.gate in Decide(x, c).gates && c.gate !in Stored(x.table) && g.Gate? && g.status == Val("pending")
            && BindingValue(g.binding) == c.ask.binding && (Bound(g) <==> c.ask.binding.Some?)
            && GateAfter(g) == (if c.ask.waits.Some? then c.ask.waits.value else [])
            && (NeedsRecord(g) <==> c.ask.record)
            && g.evidence == [] && g.refs.Absent? && g.through.Absent? && g.ran.Absent?
            && g.actor == Val(c.actor) && Because(g, c.reason) && TimeOf(g.updatedAt) == Some(x.now)
  {
    hide OrderingOk, RunRecordsOk, ArgumentsOk, PassOrderRefusal, PassGrantRefusal, Reaches;
  }

  /** Every other command keeps the binding. A depend puts the added waits after the old ones, only
      it touches waits, and only asking for a record does ask for one. */
  lemma OtherCommandsKeep(x: Context, c: Command)
    requires Decide(x, c).Written? && !c.ask.Declare?
    ensures var g, g' := Stored(x.table)[c.gate], Decide(x, c).gates[c.gate];
            && c.gate in Stored(x.table) && g.Gate? && g'.Gate? && g'.binding == g.binding
            && GateAfter(g') == GateAfter(g) + (if c.ask.Depend? then c.ask.added else [])
            && (NeedsRecord(g') <==> NeedsRecord(g) || c.ask.RequireRecord?)
            && (c.ask.Depend? || c.ask.RequireRecord? ==>
                  && g.status == Val("pending")
                  && g' == g.(after := g'.after, requiresRecord := g'.requiresRecord))
  {
    hide OrderingOk, RunRecordsOk, ArgumentsOk, PassOrderRefusal, PassGrantRefusal, Reaches;
  }

  /** A pass holds who passed it, why and when, exactly the cited evidence and record, and, where the
      gate is bound, the cited references and the ledger's newest id. */
  lemma PassHolds(x: Context, c: Command)
    requires Decide(x, c).Written? && c.ask.Pass?
    ensures var g, g' := Stored(x.table)[c.gate], Decide(x, c).gates[c.gate];
            && c.gate in Stored(x.table) && g.Gate? && g'.Gate? && g'.status == Val("pass")
            && g'.actor == Val(c.actor) && g'.reason == Val(c.reason) && TimeOf(g'.updatedAt) == Some(x.now)
            && g'.evidence == c.ask.evidence && (forall e :: e in g'.evidence ==> e in x.evidence)
            && (if c.ask.ran.Some? then g'.ran == Val(c.ask.ran.value) else g'.ran.Absent?)
            && (if Bound(g) then
                  && c.ask.authorization.Some? && g'.refs == Val(c.ask.authorization.value)
                  && x.ledger.Some? && IdNumber(g'.through) == HighWater(x.ledger.value)
                else c.ask.authorization.None? && g'.refs.Absent? && g'.through.Absent?)
  {
    hide OrderingOk, RunRecordsOk, PassOrderRefusal, Reaches, IdNumber, RanOk, ValidGrant, HighWater, FormatId,
         EvidenceId;
    NoReasonIsBlank(c.reason);
    if x.ledger.Some? && HighWater(x.ledger.value).Some? {
      FormatRoundTrip(HighWater(x.ledger.value).value);
    }
  }

  lemma NoReasonIsBlank(reason: string)
    ensures !Blank(reason) ==> reason != ""
  {
  }

  /** A gate marked not applicable says who, why and when, and cites nothing. */
  lemma NaHolds(x: Context, c: Command)
    requires Decide(x, c).Written? && c.ask.MarkNa?
    ensures var g' := Decide(x, c).gates[c.gate];
            && g'.Gate? && g'.status == Val("na")
            && g'.actor == Val(c.actor) && g'.reason == Val(c.reason) && TimeOf(g'.updatedAt) == Some(x.now)
            && g'.evidence == [] && g'.refs.Absent? && g'.through.Absent? && g'.ran.Absent?
  {
    hide OrderingOk, RunRecordsOk, Reaches;
    NoReasonIsBlank(c.reason);
  }

  // ---- exactly which commands are accepted, on gates the writers left ----

  predicate Named(c: Command) { IsName(c.gate) && !Blank(c.actor) }

  /** A new gate can be declared exactly under a new name, on gates that are there. */
  lemma DeclareExactly(x: Context, c: Command, es: seq<Entry>)
    requires c.ask.Declare? && Writable(x) && GatesSound(Stored(x.table), es)
    ensures Decide(x, c).Written? <==>
              && Named(c) && c.gate !in Stored(x.table)
              && (c.ask.binding.Some? ==> c.ask.binding.value in ACTIONS)
              && (c.ask.waits.Some? ==>
                    && c.ask.waits.value != [] && Distinct(c.ask.waits.value)
                    && forall d :: d in c.ask.waits.value ==> d in Stored(x.table))
  {
    hide OrderingOk, Accepted, GateResolved, IndexOf, PassesOrdered, ACTIONS, IsName, Blank, Distinct, RunRecordsOk,
         GateSound;
    var gates := Stored(x.table);
    SoundIsReadable(gates, es);
    if c.ask.waits.Some? && forall d :: d in c.ask.waits.value ==> d in gates {
      forall d | d in c.ask.waits.value ensures IsName(d) && IsGateIn(gates, d) {
        assert d in gates;
      }
      assert NewWaits(c) == c.ask.waits.value;
    }
    if Decide(x, c).Written? {
      assert c.ask.waits.Some? ==> forall d :: d in c.ask.waits.value ==> d in NewWaits(c) && d in gates;
    }
  }

  lemma SoundIsReadable(gates: Gates, es: seq<Entry>)
    requires GatesSound(gates, es)
    ensures OrderingOk(gates) && Acyclic(gates) && RunRecordsOk(gates)
    ensures forall n :: n in gates ==> IsName(n) && gates[n].Gate? && (Bound(gates[n]) ==> KnownBinding(gates[n]))
  {
    hide OrderingShapeOk, Acyclic, Accepted, GateResolved, IndexOf, PassesOrdered, RunRecordOk, ReferencesOk;
    forall n | n in gates
      ensures IsName(n) && gates[n].Gate? && RunRecordOk(gates[n]) && (Bound(gates[n]) ==> KnownBinding(gates[n]))
    {
      assert GateSound(n, gates[n], IndexOf(es));
    }
  }

  /** Any stored gate can be marked not applicable while the task is open, by somebody and for a reason. */
  lemma NaExactly(x: Context, c: Command, es: seq<Entry>)
    requires c.ask.MarkNa? && Writable(x) && GatesSound(Stored(x.table), es)
    ensures Decide(x, c).Written? <==> c.gate in Stored(x.table) && !Blank(c.actor) && !Blank(c.reason)
  {
    hide OrderingOk, Accepted, GateResolved, IndexOf, PassesOrdered, IsName;
    SoundIsReadable(Stored(x.table), es);
  }

  /** A record can be asked of exactly the pending gates that need none yet. */
  lemma RecordExactly(x: Context, c: Command, es: seq<Entry>)
    requires c.ask.RequireRecord? && Writable(x) && GatesSound(Stored(x.table), es)
    ensures Decide(x, c).Written? <==>
              && c.gate in Stored(x.table) && !Blank(c.actor) && !Blank(c.reason)
              && Stored(x.table)[c.gate].status == Val("pending") && !NeedsRecord(Stored(x.table)[c.gate])
  {
    hide OrderingOk, Accepted, GateResolved, IndexOf, PassesOrdered, IsName;
    SoundIsReadable(Stored(x.table), es);
  }

  /** Waits can be added to exactly the pending gates, new ones, on gates that are there, as long as the
      graph they leave has no cycle: the check before the write refuses nothing else. */
  lemma DependExactly(x: Context, c: Command, es: seq<Entry>)
    requires c.ask.Depend? && Writable(x) && GatesSound(Stored(x.table), es)
    ensures Decide(x, c).Written? <==>
              && c.gate in Stored(x.table) && !Blank(c.actor) && !Blank(c.reason)
              && Stored(x.table)[c.gate].status == Val("pending")
              && c.ask.added != [] && Distinct(c.ask.added)
              && (forall d :: d in c.ask.added ==> d in Stored(x.table) && d !in GateAfter(Stored(x.table)[c.gate]))
              && Acyclic(WithWaits(Stored(x.table), c.gate, c.ask.added))
  {
    hide OrderingOk, Accepted, GateResolved, IndexOf, PassesOrdered, IsName, Blank, Distinct, Reaches, Acyclic,
         RunRecordsOk, GateSound, WithWaits;
    var gates := Stored(x.table);
    SoundIsReadable(gates, es);
    if c.gate in gates {
      LoopsExactly(gates, c.gate, c.ask.added);
      if c.gate in c.ask.added {
        ReachesSelf(gates, c.gate);
      }
    }
    if forall d :: d in c.ask.added ==> d in gates {
      forall d | d in c.ask.added ensures IsName(d) && IsGateIn(gates, d) {
        assert d in gates;
      }
    }
    if Decide(x, c).Written? {
      assert forall d :: d in c.ask.added ==> d in NewWaits(c) && d in gates;
    }
  }

  function WithWaits(gates: Gates, n: string, added: seq<string>): Gates {
    if n in gates && gates[n].Gate? then gates[n := gates[n].(after := Val(GateAfter(gates[n]) + added))] else gates
  }

  lemma LoopsExactly(gates: Gates, n: string, added: seq<string>)
    requires Acyclic(gates) && n in gates && gates[n].Gate?
    ensures Acyclic(WithWaits(gates, n, added)) <==> forall d :: d in added ==> !Reaches(gates, d, n)
  {
    hide Reaches;
    var more := WithWaits(gates, n, added);
    if forall d :: d in added ==> !Reaches(gates, d, n) {
      AddedEdgesKeepAcyclic(gates, more, n, added);
    }
    if Acyclic(more) {
      forall d | d in added ensures !Reaches(gates, d, n) {
        assert d in After(more, n);
        ReachesMore(gates, n, added, d);
      }
    }
  }

  lemma ReachesMore(gates: Gates, n: string, added: seq<string>, d: string)
    ensures Reaches(gates, d, n) ==> Reaches(WithWaits(gates, n, added), d, n)
  {
    if p :| PathBetween(gates, p, d, n) {
      var more := WithWaits(gates, n, added);
      forall i | 0 <= i < |p| - 1 ensures p[i + 1] in After(more, p[i]) {
        assert p[i + 1] in After(gates, p[i]);
      }
      assert PathBetween(more, p, d, n);
    }
  }

  /** A pass is accepted exactly when the gate can be passed, the run record is there where one is needed,
      exactly the bound gates cite references, each a valid grant now, and all evidence is known. */
  lemma AnyPassExactly(x: Context, c: Command, es: seq<Entry>)
    requires c.ask.Pass? && Writable(x) && GatesSound(Stored(x.table), es) && ArgumentsOk(c)
    ensures Decide(x, c).Written? <==>
              && CanPass(x, Stored(x.table), c.gate)
              && (NeedsRecord(Stored(x.table)[c.gate]) ==> c.ask.ran.Some?)
              && (c.ask.authorization.Some? <==> Bound(Stored(x.table)[c.gate]))
              && (c.ask.authorization.Some? ==>
                    && c.ask.authorization.value != []
                    && forall ref :: ref in c.ask.authorization.value ==>
                         ValidGrant(x.ledger.value, Val(ref), Stored(x.table)[c.gate].binding.value, Some(x.now),
                                    Val(FormatId(HighWater(x.ledger.value).value))))
              && (forall e :: e in c.ask.evidence ==> e in x.evidence)
  {
    hide OrderingOk, Accepted, GateResolved, IndexOf, PassesOrdered, IdNumber, RanOk, ValidGrant, HighWater, FormatId,
         EvidenceId, ArgumentsOk, PassOrderRefusal, RunRecordsOk, NewRecord, ACTIONS;
    var gates := Stored(x.table);
    SoundIsReadable(gates, es);
    NamedByArguments(c);
    if c.gate in gates {
      OrderRefusalExactly(x, gates, gates[c.gate]);
      if Decide(x, c).Written? && Bound(gates[c.gate]) {
        AcceptedGrant(x, gates[c.gate], c.ask.authorization);
      }
    }
  }

  lemma NamedByArguments(c: Command)
    requires ArgumentsOk(c)
    ensures IsName(c.gate)
  {
    hide IdNumber, RanOk, EvidenceId;
  }

  /** On gates the writers left and with a readable ledger, one refusal alone says that stored state
      is missing: the pass that would be accepted but for evidence nobody recorded. */
  lemma StateRefusalExactly(x: Context, c: Command, es: seq<Entry>)
    requires Writable(x) && GatesSound(Stored(x.table), es) && x.ledger.Some?
    ensures Decide(x, c).Refused? ==> Decide(x, c).code in {2, 3}
    ensures Decide(x, c) == GateWriter.Outcome.Refused(3) ==>
              c.ask.Pass? && exists e :: e in c.ask.evidence && e !in x.evidence
    ensures c.ask.Pass? && (exists e :: e in c.ask.evidence && e !in x.evidence)
            && Decide(x.(evidence := x.evidence + (set e | e in c.ask.evidence)), c).Written? ==>
              Decide(x, c) == GateWriter.Outcome.Refused(3)
  {
    hide OrderingOk, Accepted, GateResolved, IndexOf, PassesOrdered, IdNumber, RanOk, ValidGrant, HighWater, FormatId,
         EvidenceId, ArgumentsOk, RunRecordsOk, NewRecord, ACTIONS, Reaches, UnresolvedDependencies;
    SoundIsReadable(Stored(x.table), es);
  }

  /** A ledger that cannot be read is missing state as well: it stops the passes that must look at it. */
  lemma LedgerRefusalExactly(x: Context, c: Command, es: seq<Entry>)
    requires Writable(x) && GatesSound(Stored(x.table), es) && x.ledger.None?
    requires c.ask.Pass? && ArgumentsOk(c) && c.gate in Stored(x.table)
    requires NeedsRecord(Stored(x.table)[c.gate]) ==> c.ask.ran.Some?
    ensures var g := Stored(x.table)[c.gate];
            var looks := exists d :: d in GateAfter(g) && d in Stored(x.table) && Bound(Stored(x.table)[d]);
            && (looks ==> Decide(x, c) == GateWriter.Outcome.Refused(3))
            && (!looks && Bound(g) && c.ask.authorization.Some? && c.ask.authorization.value != []
                && (forall d :: d in GateAfter(g) ==>
                    d in Stored(x.table) && GateResolved(Stored(x.table)[d], None)) ==>
                  Decide(x, c) == GateWriter.Outcome.Refused(3))
            && (Bound(g) ==> Decide(x, c).Refused?)
  {
    hide OrderingOk, Accepted, GateResolved, IndexOf, PassesOrdered, IdNumber, RanOk, ValidGrant, HighWater, FormatId,
         EvidenceId, ArgumentsOk, RunRecordsOk, NewRecord, ACTIONS, UnresolvedDependencies;
    var gates := Stored(x.table);
    SoundIsReadable(gates, es);
    NamedByArguments(c);
    OrderRefusalExactly(x, gates, gates[c.gate]);
  }

  /** Stored gates the writer cannot build on stop every well-formed command on an open task the same way. */
  lemma BrokenStateIsRefused(x: Context, c: Command)
    requires ArgumentsOk(c) && Strip(x.phase) !in {"done", "aborted"}
    requires x.table.GatesNotAMap? || !OrderingOk(Stored(x.table)) || !RunRecordsOk(Stored(x.table))
    ensures Decide(x, c) == GateWriter.Outcome.Refused(3)
  {
    hide OrderingOk, ArgumentsOk, RunRecordsOk, Strip;
  }

  /** And a finished task takes no command at all. */
  lemma FinishedIsRefused(x: Context, c: Command)
    requires Strip(x.phase) in {"done", "aborted"}
    ensures Decide(x, c) == GateWriter.Outcome.Refused(2)
  {
    hide OrderingOk, ArgumentsOk, RunRecordsOk, Strip;
  }

  // ---- over whole runs ----

  /** One step keeps the binding of every stored gate. */
  lemma StepKeepsBindings(w: World, st: Step)
    requires Sound(w)
    ensures RetryRuns.GatesStay(Stored(w.status.gates), Stored(Next(w, st).status.gates))
  {
    hide Next, GatesSound;
    SoundGatesAreReadable(w);
    if st.GateStep? {
      RetryRuns.GateStepGates(w, st);
    } else if st.SyncStep? {
      RetryRuns.SyncStepGates(w, st);
    } else if st.ReviseStep? {
      ReviseKeepsBindings(w, st);
    } else {
      RetryRuns.OtherStepsGates(w, st);
    }
  }

  lemma SoundGatesAreReadable(w: World)
    requires Sound(w)
    ensures GatesReadable(w.status.gates)
  {
    hide OrderingOk, RunRecordsOk, GatesSound;
    SoundIsReadable(Stored(w.status.gates), w.entries);
  }

  lemma ReviseKeepsBindings(w: World, st: Step)
    requires st.ReviseStep?
    ensures RetryRuns.GatesStay(Stored(w.status.gates), Stored(Next(w, st).status.gates))
  {
    hide ChangeArgumentsOk, StoredReadable, AlreadyRecorded, RevisedStatus, HasBranch;
    if ReviseSpec(w.status, st.p).Wrote? {
      RetryRuns.RevisedGatesStay(w.status, st.p);
    }
  }

  lemma {:induction false} RunsKeepBindings(w: World, steps: seq<Step>)
    requires Sound(w) && forall i :: 0 <= i < |steps| ==> StepAllowed(steps[i])
    ensures RetryRuns.GatesStay(Stored(w.status.gates), Stored(Run(w, steps).status.gates))
    decreases |steps|
  {
    hide Next, Sound, StepAllowed;
    if steps != [] {
      StepKeepsBindings(w, steps[0]);
      OneStepSound(w, steps[0]);
      RunsKeepBindings(Next(w, steps[0]), steps[1..]);
    }
  }

  lemma OneStepSound(w: World, st: Step)
    requires Sound(w) && StepAllowed(st)
    ensures Sound(Next(w, st))
  {
    hide Next, Sound, StepAllowed;
    RunsStaySound(w, [st]);
    assert [st][1..] == [];
    assert Run(Next(w, st), []) == Next(w, st);
    assert Run(w, [st]) == Next(w, st);
  }

  /** A pass of the gate is worth a grant: the ledger holds a grant of the action that had started and
      not ended when the gate was passed, and that nobody had revoked by the recorded snapshot. */
  ghost predicate PassedOnGrant(g: Gate, action: string, es: seq<Entry>) {
    && g.Gate? && TimeOf(g.updatedAt).Some? && IdNumber(g.through).Some?
    && exists k :: ScanValid(es, k, action, TimeOf(g.updatedAt).value, IdNumber(g.through).value)
  }

  function ContextOf(w: World, st: Step): Context
    requires st.GateStep?
  {
    Context(w.status.phase, w.status.gates, Read(w.entries, st.readable), st.evidence, st.now)
  }

  /** A gate that is bound to an action stays so, and if it is ever a pass then on a grant of that very
      action, whatever is done meanwhile by whichever writers. */
  lemma BoundGateNeedsGrant(w: World, n: string, action: string, steps: seq<Step>)
    requires Sound(w) && forall i :: 0 <= i < |steps| ==> StepAllowed(steps[i])
    requires n in Stored(w.status.gates) && Stored(w.status.gates)[n].Gate?
    requires Stored(w.status.gates)[n].binding == Val(action)
    ensures var v := Run(w, steps);
            && n in Stored(v.status.gates)
            && var g := Stored(v.status.gates)[n];
            && g.Gate? && g.binding == Val(action)
            && (g.status == Val("pass") ==> PassedOnGrant(g, action, v.entries))
  {
    hide Sound, Run, IndexOf, PassedOnGrant, StepAllowed;
    RunsKeepBindings(w, steps);
    RunsStaySound(w, steps);
    SoundPassHasGrant(Run(w, steps), n);
  }

  /** What --requires-authorization promises: a gate declared for an action can never be a pass, in any
      later state, without a grant of that action. */
  lemma DeclaredActionNeedsGrant(w: World, st: Step, steps: seq<Step>)
    requires Sound(w) && st.GateStep? && st.c.ask.Declare? && st.c.ask.binding.Some?
    requires Decide(ContextOf(w, st), st.c).Written?
    requires forall i :: 0 <= i < |steps| ==> StepAllowed(steps[i])
    ensures var v := Run(Next(w, st), steps);
            && st.c.gate in Stored(v.status.gates)
            && var g := Stored(v.status.gates)[st.c.gate];
            && g.Gate? && g.binding == Val(st.c.ask.binding.value)
            && (g.status == Val("pass") ==> PassedOnGrant(g, st.c.ask.binding.value, v.entries))
  {
    hide Sound, Decide, Run, PassedOnGrant, Next;
    DeclareLands(w, st);
    OneStepSound(w, st);
    BoundGateNeedsGrant(Next(w, st), st.c.gate, st.c.ask.binding.value, steps);
  }

  lemma DeclareLands(w: World, st: Step)
    requires st.GateStep? && st.c.ask.Declare? && st.c.ask.binding.Some?
    requires Decide(ContextOf(w, st), st.c).Written?
    ensures var gates := Stored(Next(w, st).status.gates);
            && st.c.gate in gates && gates[st.c.gate].Gate?
            && gates[st.c.gate].binding == Val(st.c.ask.binding.value)
  {
    hide Decide, IndexOf;
    DeclareHolds(ContextOf(w, st), st.c);
  }

  lemma SoundPassHasGrant(v: World, n: string)
    requires Sound(v) && n in Stored(v.status.gates) && Stored(v.status.gates)[n].Gate?
    ensures var g := Stored(v.status.gates)[n];
            g.status == Val("pass") && g.binding.Val? ==> PassedOnGrant(g, g.binding.value, v.entries)
  {
    hide OrderingOk, IndexOf, ValidGrant, Accepted, IdNumber, ScanValid, BranchSectionOk, RanOk;
    var g := Stored(v.status.gates)[n];
    assert GateSound(n, g, IndexOf(v.entries));
    if g.status == Val("pass") && g.binding.Val? {
      var ref := g.refs.value[0];
      assert ValidGrant(IndexOf(v.entries), Val(ref), g.binding.value, TimeOf(g.updatedAt), g.through);
      IndexAgreesWithScan(v.entries, Val(ref), g.binding.value, TimeOf(g.updatedAt), g.through);
    }
  }

  // ---- gates declared by a plan or a revision ----

  /** A plan lists a gate well exactly when the gate could be declared so by a command, for a reason. */
  lemma ListedIsDeclarable(p: PlanItem, name: string)
    requires p.PlanItem? && !p.extra && p.name == Val(name)
    requires (p.after.Absent? || p.after.Val?) && (p.binding.Absent? || p.binding.Val?)
    requires p.record.Absent? || p.record == Val(true)
    ensures ItemOk(p) <==>
              && p.reason.Val? && !Blank(p.reason.value)
              && ArgumentsOk(Command(name, "pm", p.reason.value,
                                     Declare(BindingValue(p.binding),
                                             if p.after.Val? then Some(p.after.value) else None,
                                             p.record == Val(true))))
  {
    hide IsName, Distinct, ACTIONS;
    assert !IsSpace("pm"[0]);
  }

  /** The gate is as the plan's item lists it. */
  ghost predicate AsListed(g: Gate, p: PlanItem)
    requires ItemOk(p)
  {
    && g.Gate? && SameBinding(g.binding, p.binding)
    && (forall d :: d in GateAfter(g) <==> d in Wanted(p))
    && (NeedsRecord(g) <==> p.record == Val(true))
  }

  /** After an applied plan each listed gate is as the plan lists it: a new one pending, for the reason
      given, by the project manager; a stored one with its old waits in front. */
  lemma PlanHolds(gates: Gates, plan: Plan, at: int, p: PlanItem)
    requires PlanOk(plan) && Applies(gates, plan, at) && p in plan
    ensures var r, n := Merged(gates, plan, at), NameOf(p);
            && n in r && AsListed(r[n], p)
            && (n !in gates ==>
                  && r[n].status == Val("pending") && r[n].reason == p.reason && r[n].actor == Val("pm")
                  && TimeOf(r[n].updatedAt) == Some(at) && GateAfter(r[n]) == Wanted(p)
                  && r[n].evidence == [] && r[n].refs.Absent? && r[n].through.Absent? && r[n].ran.Absent?)
            && (n in gates ==> OnlyAdded(gates[n], r[n]))
  {
    hide ItemConflict, MergedGate, Merged, OrderingOk, NamesDistinct, ListedGraph, AsListed, OnlyAdded, ItemOk;
    MergedAt(gates, plan, at);
    ItemHolds(gates, p, at);
  }

  lemma ItemHolds(gates: Gates, p: PlanItem, at: int)
    requires ItemOk(p) && !ItemConflict(gates, p)
    ensures var g := MergedGate(gates, p, at);
            && AsListed(g, p)
            && (NameOf(p) !in gates ==>
                  && g.status == Val("pending") && g.reason == p.reason && g.actor == Val("pm")
                  && TimeOf(g.updatedAt) == Some(at) && GateAfter(g) == Wanted(p)
                  && g.evidence == [] && g.refs.Absent? && g.through.Absent? && g.ran.Absent?)
            && (NameOf(p) in gates ==> OnlyAdded(gates[NameOf(p)], g))
  {
    hide IsName, Distinct, ACTIONS, Blank;
    MergedGateOnlyAdds(gates, p, at);
  }

  /** A stored gate is in the way of an item exactly when no add-only change makes it as listed. */
  lemma ConflictExactly(gates: Gates, p: PlanItem, at: int)
    requires ItemOk(p) && NameOf(p) in gates
    ensures ItemConflict(gates, p) <==> !exists g :: OnlyAdded(gates[NameOf(p)], g) && AsListed(g, p)
  {
    hide IsName, Distinct, ACTIONS, Blank, MergedGate, ItemOk;
    if !ItemConflict(gates, p) {
      ItemHolds(gates, p, at);
      assert OnlyAdded(gates[NameOf(p)], MergedGate(gates, p, at));
    } else if g :| OnlyAdded(gates[NameOf(p)], g) && AsListed(g, p) {
      NothingMissing(GateAfter(g), Wanted(p));
      assert false;
    }
  }

  /** The gates of a landed revision are pending and bound as the change asks. */
  lemma RevisionHolds(s: Status, c: PlanChange, i: nat)
    requires ReviseSpec(s, c).Wrote? && i < |c.gates|
    ensures var gates := Stored(ReviseSpec(s, c).status.gates);
            && c.gates[i].name in gates && c.gates[i].name !in Stored(s.gates)
            && var g := gates[c.gates[i].name];
            && g.Gate? && g.status == Val("pending") && BindingValue(g.binding) == c.gates[i].binding
            && (Bound(g) <==> c.gates[i].binding.Some?)
            && g.actor == Val(c.actor) && g.reason == Val(c.reason) && TimeOf(g.updatedAt) == Some(c.now)
            && GateAfter(g) == [] && !NeedsRecord(g) && g.evidence == [] && g.refs.Absent? && g.through.Absent?
  {
    hide ChangeArgumentsOk, StoredReadable, AlreadyRecorded, HasBranch, WithBranches, WithGates, NextRevision,
         EffectsOf, UPDATABLE_PHASES;
    PlanRetry.WishNamesDiffer(c);
    PlanRetry.DeclaredGateIsStored(Stored(s.gates), c, |c.gates|, i);
    PlanRetry.BranchPartFrame(Gated(s, c), c, |c.branches|);
  }
}
