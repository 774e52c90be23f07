/** The one governed writer of completion gates (scripts/update-completion-gate.rb). */
module GateWriter {
  import opened Text
  import opened AuthorizationLedger
  import opened LedgerIndex
  import opened CompletionGuard
  import opened GateOrdering
  import RecordAuthorization

  datatype Ask =
    | Declare(binding: Option<string>, waits: Option<seq<string>>, record: bool)
    | Pass(evidence: seq<string>, authorization: Option<seq<string>>, ran: Option<Ran>)
    | MarkNa
    | Depend(added: seq<string>)
    | RequireRecord

  datatype Command = Command(gate: string, actor: string, reason: string, ask: Ask)

  /** What the writer reads inside its critical section: the phase, the stored gates, the ledger
      (none when it cannot be loaded), the known evidence ids, and the clock, once. */
  datatype Context = Context(phase: string, table: GateTable, ledger: Option<Index>, evidence: set<string>, now: int)

  datatype Outcome = Written(gates: Gates) | Refused(code: nat)

  // ---- the command line ----

  predicate EvidenceId(s: string) {
    |s| >= 6 && s[..3] == "ev-" && AllDigits(s[3..])
  }

  predicate WaitsOk(gate: string, waits: seq<string>) {
    waits != [] && (forall d :: d in waits ==> IsName(d)) && Distinct(waits) && gate !in waits
  }

  predicate ArgumentsOk(c: Command) {
    && IsName(c.gate)
    && !Blank(c.actor)
    && (!c.ask.Declare? ==> !Blank(c.reason))
    && match c.ask
       case Declare(binding, waits, _) =>
         (binding.Some? ==> binding.value in ACTIONS) && (waits.Some? ==> WaitsOk(c.gate, waits.value))
       case Pass(evidence, authorization, ran) =>
         && (forall e :: e in evidence ==> EvidenceId(e))
         && (authorization.Some? ==> forall id :: id in authorization.value ==> IdNumber(Val(id)).Some?)
         && (ran.Some? ==> RanOk(Val(ran.value)))
       case MarkNa => true
       case Depend(added) => WaitsOk(c.gate, added)
       case RequireRecord => true
  }

  // ---- stored state the writer refuses to build on ----

  predicate RunRecordOk(g: Gate) {
    g.Gate? ==>
      && (g.requiresRecord.Absent? || g.requiresRecord == Val(true))
      && (g.ran.Absent? || (RanOk(g.ran) && g.status == Val("pass")))
  }

  predicate RunRecordsOk(gates: Gates) {
    forall n :: n in gates ==> RunRecordOk(gates[n])
  }

  function Stored(t: GateTable): Gates {
    if t.GateMap? then t.gates else map[]
  }

  // ---- the decision ----

  predicate IsGateIn(gates: Gates, n: string) { n in gates && gates[n].Gate? }

  function NewWaits(c: Command): seq<string> {
    match c.ask
    case Declare(_, waits, _) => if waits.Some? then waits.value else []
    case Depend(added) => added
    case _ => []
  }

  predicate KnownBinding(g: Gate) { g.Gate? && g.binding.Val? && g.binding.value in ACTIONS }

  predicate HasBoundWait(gates: Gates, g: Gate) {
    exists d :: d in GateAfter(g) && d in gates && Bound(gates[d])
  }

  /** The refusal a pass meets at its ordering, if any: 3 when a bound wait needs a ledger that
      cannot be read, 2 while some wait is unresolved. */
  function PassOrderRefusal(x: Context, gates: Gates, g: Gate): Option<nat> {
    if HasBoundWait(gates, g) && x.ledger.None? then Some(3)
    else if UnresolvedDependencies(gates, g, if HasBoundWait(gates, g) then x.ledger else None) != {} then Some(2)
    else None
  }

  /** The refusal a pass meets at its authorization, if any. */
  function PassGrantRefusal(x: Context, g: Gate, refs: Option<seq<string>>): Option<nat>
    requires Bound(g) ==> KnownBinding(g)
  {
    if Bound(g) then
      if refs.None? || refs.value == [] then Some(2)
      else if x.ledger.None? then Some(3)
      else if HighWater(x.ledger.value).None? then Some(2)
      else if exists ref :: ref in refs.value &&
                !ValidGrant(x.ledger.value, Val(ref), g.binding.value, Some(x.now),
                            Val(FormatId(HighWater(x.ledger.value).value)))
      then Some(2) else None
    else if refs.Some? then Some(2) else None
  }

  /** The record a command writes; a transition rebuilds it and carries binding, `after` and
      requires_record forward. */
  function NewRecord(x: Context, gates: Gates, c: Command): Gate
    requires !c.ask.Declare? ==> IsGateIn(gates, c.gate)
  {
    var reason := if c.reason == "" then Absent else Val(c.reason);
    match c.ask
    case Declare(binding, waits, record) =>
      Gate(Val("pending"), Val(c.actor), reason, Val(Instant(x.now)), [],
           if binding.Some? then Val(binding.value) else Absent, Absent, Absent,
           if waits.Some? then Val(waits.value) else Absent,
           if record then Val(true) else Absent, Absent)
    case Pass(evidence, authorization, ran) =>
      var g := gates[c.gate];
      var through :=
        if Bound(g) && x.ledger.Some? && HighWater(x.ledger.value).Some?
        then Val(FormatId(HighWater(x.ledger.value).value)) else Absent;
      Gate(Val("pass"), Val(c.actor), reason, Val(Instant(x.now)), evidence,
           g.binding, if Bound(g) && authorization.Some? then Val(authorization.value) else Absent, through,
           g.after, if NeedsRecord(g) then Val(true) else Absent,
           if ran.Some? then Val(ran.value) else Absent)
    case MarkNa =>
      var g := gates[c.gate];
      Gate(Val("na"), Val(c.actor), reason, Val(Instant(x.now)), [], g.binding, Absent, Absent,
           g.after, if NeedsRecord(g) then Val(true) else Absent, Absent)
    case Depend(added) =>
      var g := gates[c.gate];
      g.(after := Val(GateAfter(g) + added))
    case RequireRecord =>
      gates[c.gate].(requiresRecord := Val(true))
  }

  /** The refusal a command meets once the stored gates are known to be readable, if any. */
  ghost function GateRefusal(x: Context, gates: Gates, c: Command): Option<nat> {
    var n := c.gate;
    if c.ask.Declare? && n in gates then Some(2)
    else if !c.ask.Declare? && !IsGateIn(gates, n) then Some(2)
    else if c.ask.Depend? && gates[n].status != Val("pending") then Some(2)
    else if c.ask.RequireRecord? && (gates[n].status != Val("pending") || NeedsRecord(gates[n])) then Some(2)
    else if c.ask.Pass? && NeedsRecord(gates[n]) && c.ask.ran.None? then Some(2)
    else if exists d :: d in NewWaits(c) && !IsGateIn(gates, d) then Some(2)
    else if c.ask.Depend? && exists d :: d in c.ask.added && (d in GateAfter(gates[n]) || Reaches(gates, d, n))
        then Some(2)
    else if c.ask.Pass? && PassOrderRefusal(x, gates, gates[n]).Some? then PassOrderRefusal(x, gates, gates[n])
    else if !c.ask.Declare? && Bound(gates[n]) && !KnownBinding(gates[n]) then Some(3)
    else if c.ask.Pass? && PassGrantRefusal(x, gates[n], c.ask.authorization).Some?
    then PassGrantRefusal(x, gates[n], c.ask.authorization)
    else if c.ask.Pass? && exists e :: e in c.ask.evidence && e !in x.evidence then Some(3)
    else None
  }

  ghost function Decide(x: Context, c: Command): Outcome {
    var gates := Stored(x.table);
    if !ArgumentsOk(c) || RecordAuthorization.Finished(x.phase) then Refused(2)
    else if x.table.GatesNotAMap? || !OrderingOk(gates) || !RunRecordsOk(gates) then Refused(3)
    else if GateRefusal(x, gates, c).Some? then Refused(GateRefusal(x, gates, c).value)
    else Written(gates[c.gate := NewRecord(x, gates, c)])
  }

  /** The gate section of one task's status.yaml. */
  class GateSection {
    var table: GateTable
    var historyRows: nat

    constructor (t: GateTable)
      ensures table == t && historyRows == 0
    {
      table := t;
      historyRows := 0;
    }

    /** One run of the writer: refuses and writes nothing, or replaces one gate and adds one row. */
    method Update(c: Command, phase: string, ledger: Option<Index>, evidence: set<string>, now: int) returns (code: nat)
      modifies this
      ensures var d := Decide(Context(phase, old(table), ledger, evidence, now), c);
              match d
              case Written(gates) => code == 0 && table == GateMap(gates) && historyRows == old(historyRows) + 1
              case Refused(k) => code == k && table == old(table) && historyRows == old(historyRows)
    {
      hide IdNumber, ArgumentsOk, OrderingOk, RunRecordsOk, Reaches, NewRecord, UnresolvedDependencies, ValidGrant,
           HighWater;
      ghost var x := Context(phase, table, ledger, evidence, now);
      if !ArgumentsOk(c) || RecordAuthorization.Finished(phase) {
        return 2;
      }
      if table.GatesNotAMap? {
        return 3;
      }
      var gates := Stored(table);
      var problems := OrderingErrors(gates);
      if problems != [] || !RunRecordsOk(gates) {
        return 3;
      }
      var n := c.gate;
      if c.ask.Declare? {
        if n in gates {
          return 2;
        }
      } else if !IsGateIn(gates, n) {
        return 2;
      }
      if c.ask.Depend? && gates[n].status != Val("pending") {
        return 2;
      }
      if c.ask.RequireRecord? && (gates[n].status != Val("pending") || NeedsRecord(gates[n])) {
        return 2;
      }
      if c.ask.Pass? && NeedsRecord(gates[n]) && c.ask.ran.None? {
        return 2;
      }
      var waits := NewWaits(c);
      if exists d :: d in waits && !IsGateIn(gates, d) {
        return 2;
      }
      if c.ask.Depend? {
        var added := c.ask.added;
        if exists d :: d in added && d in GateAfter(gates[n]) {
          return 2;
        }
        for i := 0 to |added|
          invariant table == old(table) && historyRows == old(historyRows)
          invariant forall k :: 0 <= k < i ==> !Reaches(gates, added[k], n)
        {
          var looped := GateReaches(gates, added[i], n);
          if looped {
            assert added[i] in added;
            return 2;
          }
        }
      }
      if c.ask.Pass? {
        var refused := PassOrderRefusal(Context(phase, table, ledger, evidence, now), gates, gates[n]);
        if refused.Some? {
          return refused.value;
        }
      }
      if !c.ask.Declare? && Bound(gates[n]) && !KnownBinding(gates[n]) {
        return 3;
      }
      if c.ask.Pass? {
        var refused := PassGrantRefusal(Context(phase, table, ledger, evidence, now), gates[n], c.ask.authorization);
        if refused.Some? {
          return refused.value;
        }
        if exists e :: e in c.ask.evidence && e !in evidence {
          return 3;
        }
      }
      assert GateRefusal(x, gates, c).None?;
      var record := NewRecord(Context(phase, table, ledger, evidence, now), gates, c);
      table := GateMap(gates[n := record]);
      historyRows := historyRows + 1;
      return 0;
    }
  }
}
