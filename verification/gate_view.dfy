/** The read-only view of a task's gates, and its agreement with the guard and the writer
    (gate_view and gate_view_entry of scripts/completion-guard.rb). */
module GateView {
  import opened Text
  import opened AuthorizationLedger
  import opened LedgerIndex
  import opened CompletionGuard
  import opened GateOrdering
  import opened GateWriter
  import opened GateRules
  import RecordAuthorization

  datatype Grant = NoGrantNeeded | Unknown | Available | MissingGrant

  datatype GateLine = GateLine(name: string, resolved: bool, waitsOn: set<string>, grant: Grant,
                               validUntil: Option<int>, passable: bool)

  datatype View = Unreadable | View(lines: map<string, GateLine>, total: nat, resolved: nat, passable: nat)

  /** Stored state no surface can present: anything that is not a map, malformed or cyclic
      orderings, malformed run records, and a binding that is no known action. */
  ghost predicate Readable(t: GateTable) {
    && !t.GatesNotAMap?
    && (forall n :: n in Stored(t) ==> Stored(t)[n].Gate?)
    && OrderingOk(Stored(t))
    && RunRecordsOk(Stored(t))
    && forall n :: n in Stored(t) && Bound(Stored(t)[n]) ==> KnownBinding(Stored(t)[n])
  }

  /** The index the view judges with: none when some gate is bound and the ledger cannot be read. */
  function ViewIndex(gates: Gates, ledger: Option<Index>): Option<Index> {
    if exists n :: n in gates && Bound(gates[n]) then ledger else None
  }

  function Snapshot(ix: Index): Field<string> {
    if HighWater(ix).Some? then Val(FormatId(HighWater(ix).value)) else Null
  }

  function GrantFor(g: Gate, index: Option<Index>, now: int): Grant
    requires g.Gate? && (Bound(g) ==> KnownBinding(g))
  {
    if !Bound(g) || g.status != Val("pending") then NoGrantNeeded
    else if index.None? then Unknown
    else if AnyValidGrant(index.value, g.binding.value, Some(now), Snapshot(index.value)) then Available
    else MissingGrant
  }

  function LineFor(gates: Gates, n: string, index: Option<Index>, now: int, finished: bool): GateLine
    requires n in gates && gates[n].Gate? && (Bound(gates[n]) ==> KnownBinding(gates[n]))
  {
    var g := gates[n];
    var waitsOn := set d | d in GateAfter(g) && !(d in gates && GateResolved(gates[d], index));
    var grant := GrantFor(g, index, now);
    GateLine(n, GateResolved(g, index), waitsOn, grant,
             if grant.Available? then ValidGrantUntil(index.value, g.binding.value, Some(now), Snapshot(index.value))
             else None,
             !finished && g.status == Val("pending") && waitsOn == {} && (!Bound(g) || grant.Available?))
  }

  function ResolvedLines(lines: map<string, GateLine>): set<string> {
    set n | n in lines && lines[n].resolved
  }

  function PassableLines(lines: map<string, GateLine>): set<string> {
    set n | n in lines && lines[n].passable
  }

  method GateViewOf(phase: string, t: GateTable, ledger: Option<Index>, now: int) returns (v: View)
    ensures v.View? <==> Readable(t)
    ensures v.View? ==>
              && v.lines.Keys == Stored(t).Keys
              && v.total == |Stored(t)|
              && v.resolved == |ResolvedLines(v.lines)|
              && v.passable == |PassableLines(v.lines)|
              && forall n :: n in v.lines ==>
                   v.lines[n] == LineFor(Stored(t), n, ViewIndex(Stored(t), ledger), now,
                                         RecordAuthorization.Finished(phase))
  {
    hide OrderingOk, RunRecordsOk, LineFor, ViewIndex, IsSpace;
    var gates := Stored(t);
    if t.GatesNotAMap? || exists n :: n in gates && gates[n].NotAMap? {
      return Unreadable;
    }
    var problems := OrderingErrors(gates);
    if problems != [] || !RunRecordsOk(gates) || exists n :: n in gates && Bound(gates[n]) && !KnownBinding(gates[n]) {
      return Unreadable;
    }
    var index, finished := ViewIndex(gates, ledger), RecordAuthorization.Finished(phase);
    var lines := map n | n in gates :: LineFor(gates, n, index, now, finished);
    v := View(lines, |gates|, |ResolvedLines(lines)|, |PassableLines(lines)|);
  }

  lemma UnboundNeedsNoIndex(gates: Gates, n: string, ledger: Option<Index>)
    requires n in gates
    ensures GateResolved(gates[n], ViewIndex(gates, ledger)) == GateResolved(gates[n], ledger)
  {
    hide Resolved, AuthorizationSatisfied;
  }

  lemma {:induction false} FullSubset<T>(a: set<T>, b: set<T>)
    requires a <= b
    ensures |a| == |b| <==> a == b
  {
    SubsetSize(a, b);
    assert b == a + (b - a);
    assert |b| == |a| + |b - a|;
  }

  /** "resolved == total" is exactly the guard's own verdict on the gates. */
  lemma SummaryAgreesWithGuard(t: GateTable, ledger: Option<Index>, now: int, finished: bool,
                               lines: map<string, GateLine>)
    requires Readable(t)
    requires lines.Keys == Stored(t).Keys
    requires forall n :: n in lines ==> lines[n] == LineFor(Stored(t), n, ViewIndex(Stored(t), ledger), now, finished)
    ensures |ResolvedLines(lines)| == |Stored(t)| <==> MayBeDone(t, NoBranches, ledger)
  {
    hide OrderingOk, RunRecordsOk, GateResolved, ViewIndex, KnownBinding, GrantFor;
    var gates := Stored(t);
    VerdictMeaning(t, NoBranches, ledger);
    forall n | n in gates ensures lines[n].resolved == GateResolved(gates[n], ledger) {
      UnboundNeedsNoIndex(gates, n, ledger);
    }
    FullSubset(ResolvedLines(lines), gates.Keys);
    if ResolvedLines(lines) == gates.Keys {
      forall n | n in gates ensures GateResolved(gates[n], ledger) {
        assert n in ResolvedLines(lines);
      }
    }
  }

  /** "can pass now" is exactly what the writer accepts, for a gate whose name the writer knows how
      to take: the view does not check the name, the writer does. */
  lemma PassableExactly(x: Context, n: string)
    requires Readable(x.table) && n in Stored(x.table)
    ensures var gates := Stored(x.table);
            var line := LineFor(gates, n, ViewIndex(gates, x.ledger), x.now, RecordAuthorization.Finished(x.phase));
            line.passable && IsName(n) <==> gates[n].status == Val("pending") && exists c :: AcceptedPass(x, n, c)
  {
    hide OrderingOk, RunRecordsOk, GateResolved, AcceptedPass, HighWater, ValidGrant, IsName, IdNumber, IsSpace,
         ViewIndex;
    var gates := Stored(x.table);
    var index := ViewIndex(gates, x.ledger);
    var g := gates[n];
    if RecordAuthorization.Finished(x.phase) {
      FinishedAcceptsNothing(x, n);
    } else {
      PassExactly(x, n);
      forall d | d in GateAfter(g) && d in gates
          ensures GateResolved(gates[d], index) == GateResolved(gates[d], x.ledger) {
        UnboundNeedsNoIndex(gates, d, x.ledger);
      }
      var waitsOn := set d | d in GateAfter(g) && !(d in gates && GateResolved(gates[d], index));
      assert waitsOn == {} <==> forall d :: d in GateAfter(g) ==> d in gates && GateResolved(gates[d], x.ledger) by {
        if waitsOn == {} {
          forall d | d in GateAfter(g) ensures d in gates && GateResolved(gates[d], x.ledger) {
            assert d !in waitsOn;
          }
        }
      }
      if Bound(g) {
        BoundViewUsesLedger(gates, n, x.ledger);
        if x.ledger.Some? {
          EmptyLedgerGrantsNothing(x.ledger.value, g.binding.value, x.now);
        }
      }
    }
  }

  lemma BoundViewUsesLedger(gates: Gates, n: string, ledger: Option<Index>)
    requires n in gates && Bound(gates[n])
    ensures ViewIndex(gates, ledger) == ledger
  {
  }

  lemma FinishedAcceptsNothing(x: Context, n: string)
    requires RecordAuthorization.Finished(x.phase)
    ensures !exists c :: AcceptedPass(x, n, c)
  {
    hide IsSpace, GateRefusal, OrderingOk, RunRecordsOk, ArgumentsOk;
  }

  lemma EmptyLedgerGrantsNothing(ix: Index, action: string, now: int)
    ensures HighWater(ix).None? ==> !AnyValidGrant(ix, action, Some(now), Snapshot(ix))
  {
  }

  /** The lines agree among themselves: a gate waits on exactly those of its gates whose own lines are not
      resolved, and is resolved as the guard judges it. */
  lemma WaitsTell(t: GateTable, ledger: Option<Index>, now: int, finished: bool, n: string, d: string)
    requires Readable(t) && n in Stored(t)
    ensures var gates, ix := Stored(t), ViewIndex(Stored(t), ledger);
            && LineFor(gates, n, ix, now, finished).name == n
            && (LineFor(gates, n, ix, now, finished).resolved <==> GateResolved(gates[n], ledger))
            && (d in LineFor(gates, n, ix, now, finished).waitsOn <==>
                  d in GateAfter(gates[n]) && (d in gates ==> !LineFor(gates, d, ix, now, finished).resolved))
  {
    hide OrderingOk, RunRecordsOk, GateResolved, ViewIndex, KnownBinding, GrantFor;
    UnboundNeedsNoIndex(Stored(t), n, ledger);
  }

  /** What a line says about the grant of a pending bound gate: unknown exactly without a ledger, missing
      exactly when none is valid now; and an end it tells is the moment the present grants run out. */
  lemma GrantTells(t: GateTable, ledger: Option<Index>, now: int, finished: bool, n: string)
    requires Readable(t) && n in Stored(t)
    ensures var g, line := Stored(t)[n], LineFor(Stored(t), n, ViewIndex(Stored(t), ledger), now, finished);
            && (line.grant.NoGrantNeeded? <==> !Bound(g) || g.status != Val("pending"))
            && (Bound(g) && g.status == Val("pending") ==>
                  && (line.grant.Unknown? <==> ledger.None?)
                  && (ledger.Some? ==>
                        && (line.grant.MissingGrant? <==>
                              !AnyValidGrant(ledger.value, g.binding.value, Some(now), Snapshot(ledger.value)))
                        && (line.validUntil.Some? ==>
                              && now < line.validUntil.value
                              && (forall u :: now <= u < line.validUntil.value ==>
                                    AnyValidGrant(ledger.value, g.binding.value, Some(u), Snapshot(ledger.value)))
                              && (forall k :: k in ValidNumbers(ledger.value, g.binding.value, Some(now),
                                                                Snapshot(ledger.value)) ==>
                                    k !in ValidNumbers(ledger.value, g.binding.value, Some(line.validUntil.value),
                                                       Snapshot(ledger.value))))
                        && (line.grant.Available? && line.validUntil.None? ==>
                              forall u :: now <= u ==>
                                AnyValidGrant(ledger.value, g.binding.value, Some(u), Snapshot(ledger.value)))))
            && (!line.grant.Available? ==> line.validUntil.None?)
  {
    hide OrderingOk, RunRecordsOk, GateResolved, ValidGrant, AnyValidGrant, ValidNumbers, ValidGrantUntil, HighWater,
         ViewIndex;
    var g := Stored(t)[n];
    if Bound(g) && g.status == Val("pending") {
      BoundViewUsesLedger(Stored(t), n, ledger);
      if ledger.Some? {
        UntilIsExact(ledger.value, g.binding.value, now, Snapshot(ledger.value));
      }
    }
  }

  /** The limit of the agreement, on one stored gate: the view offers a gate named "Bad" as
      passable, and no command of the writer can pass it. */
  lemma BadNameLooksPassable() returns (x: Context, n: string)
    ensures Readable(x.table) && n in Stored(x.table) && Stored(x.table)[n].Gate?
    ensures LineFor(Stored(x.table), n, ViewIndex(Stored(x.table), x.ledger), x.now,
                    RecordAuthorization.Finished(x.phase)).passable
    ensures !exists c :: AcceptedPass(x, n, c)
  {
    n := "Bad";
    var g := Gate(Val("pending"), Val("pm"), Val("r"), Val(Instant(0)), [], Absent, Absent, Absent, Absent, Absent,
                  Absent);
    var gates: Gates := map[n := g];
    x := Context("assigned", GateMap(gates), None, {}, 0);
    assert After(gates, n) == [];
    assert Acyclic(gates);
    assert Strip("assigned") == "assigned";
    forall c ensures !AcceptedPass(x, n, c) {
      assert !IsLower(n[0]);
    }
  }
}
