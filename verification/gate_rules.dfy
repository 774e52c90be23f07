/** What every edit of the gates keeps, and when a gate can be passed. */
module GateRules {
  import opened Text
  import opened AuthorizationLedger
  import opened LedgerIndex
  import opened CompletionGuard
  import opened GateOrdering
  import opened GateWriter
  import RecordAuthorization

  // ---- the invariant ----

  /** A stored gate as governed writers leave it: well formed, and resolved once it is pass or na. */
  ghost predicate GateSound(n: string, g: Gate, ix: Index) {
    && IsName(n)
    && g.Gate?
    && (g.status == Val("pending") || g.status == Val("pass") || g.status == Val("na"))
    && (Bound(g) ==> KnownBinding(g))
    && RunRecordOk(g)
    && ReferencesOk(g)
    && (Settled(g) ==> GateResolved(g, Some(ix)))
  }

  /** References and a snapshot are ledger ids, and only a bound gate that is not na has them; cited
      evidence is named by evidence ids. */
  predicate ReferencesOk(g: Gate) {
    g.Gate? ==>
      && (forall e :: e in g.evidence ==> EvidenceId(e))
      && (g.refs.Absent? || (g.refs.Val? && forall ref :: ref in g.refs.value ==> IdNumber(Val(ref)).Some?))
      && (g.through.Absent? || IdNumber(g.through).Some?)
      && (!Bound(g) || g.status == Val("na") ==> g.refs.Absent? && g.through.Absent?)
  }

  /** Every gate that `n` waits on is resolved, as the done guard judges it. */
  ghost predicate WaitsResolved(gates: Gates, n: string, ix: Index) {
    forall d :: d in After(gates, n) ==> d in gates && GateResolved(gates[d], Some(ix))
  }

  ghost predicate PassesOrdered(gates: Gates, ix: Index) {
    forall n :: n in gates && gates[n].Gate? && gates[n].status == Val("pass") ==> WaitsResolved(gates, n, ix)
  }

  ghost predicate GatesSound(gates: Gates, es: seq<Entry>) {
    && Accepted(es)
    && OrderingOk(gates)
    && (forall n :: n in gates ==> GateSound(n, gates[n], IndexOf(es)))
    && PassesOrdered(gates, IndexOf(es))
  }

  /** No gate of `before` that was resolved has become unresolved in `later`. */
  ghost predicate NoneReopened(before: Gates, later: Gates, ix: Index) {
    forall n :: n in before && GateResolved(before[n], Some(ix)) ==> n in later && GateResolved(later[n], Some(ix))
  }

  // ---- one command ----

  lemma DistinctNames(c: Command)
    requires ArgumentsOk(c)
    ensures NewWaits(c) != [] ==> WaitsOk(c.gate, NewWaits(c))
    ensures c.ask.Depend? ==> c.ask.added != []
    ensures c.ask.Declare? && c.ask.waits.Some? ==> c.ask.waits.value != []
  {
  }

  lemma WriterKeepsOrdering(x: Context, c: Command)
    requires Decide(x, c).Written?
    ensures OrderingOk(Decide(x, c).gates)
  {
    hide IdNumber, OrderingShapeOk, Acyclic, ValidGrant, RunRecordOk, PassOrderRefusal, PassGrantRefusal, RanOk;
    var gates := Stored(x.table);
    var g := NewRecord(x, gates, c);
    DistinctNames(c);
    if c.ask.Declare? {
      DeclaredShape(x, gates, c);
      DeclareKeepsOrdering(gates, c.gate, g);
    } else if c.ask.Depend? {
      DependKeepsOrdering(gates, c.gate, g, c.ask.added);
    } else {
      RewriteKeepsOrdering(gates, c.gate, g);
    }
  }

  lemma DeclaredShape(x: Context, gates: Gates, c: Command)
    requires c.ask.Declare? && ArgumentsOk(c)
    requires forall d :: d in NewWaits(c) ==> IsGateIn(gates, d)
    ensures OrderingShapeOk(gates[c.gate := NewRecord(x, gates, c)], c.gate)
  {
    hide IdNumber, RanOk;
    DistinctNames(c);
    if c.ask.waits.Some? {
      assert NewWaits(c) == c.ask.waits.value;
    }
  }

  lemma PassWaitsResolved(x: Context, gates: Gates, g: Gate, ix: Index)
    requires PassOrderRefusal(x, gates, g).None?
    requires x.ledger.Some? ==> x.ledger == Some(ix)
    ensures forall d :: d in GateAfter(g) ==> d in gates && GateResolved(gates[d], Some(ix))
  {
    hide Resolved, AuthorizationSatisfied;
    forall d | d in GateAfter(g) ensures d in gates && GateResolved(gates[d], Some(ix)) {
      var judged := if HasBoundWait(gates, g) then x.ledger else None;
      assert d !in UnresolvedDependencies(gates, g, judged);
    }
  }

  /** What the writer accepts as a pass, the guard accepts for good: decision and later
      re-evaluation use the same time and the same snapshot. */
  lemma PassIsResolved(x: Context, gates: Gates, c: Command, ix: Index)
    requires c.ask.Pass? && ArgumentsOk(c) && IsGateIn(gates, c.gate) && GateRefusal(x, gates, c).None?
    requires x.ledger.Some? ==> x.ledger == Some(ix)
    ensures GateResolved(NewRecord(x, gates, c), Some(ix))
  {
    hide ValidGrant, UnresolvedDependencies, Reaches, HttpsUrl;
    if Bound(gates[c.gate]) {
      FormatRoundTrip(HighWater(ix).value);
    }
  }

  lemma NewRecordSound(x: Context, gates: Gates, c: Command, ix: Index)
    requires ArgumentsOk(c) && GateRefusal(x, gates, c).None?
    requires !c.ask.Declare? ==> c.gate in gates && GateSound(c.gate, gates[c.gate], ix)
    requires x.ledger.Some? ==> x.ledger == Some(ix)
    ensures GateSound(c.gate, NewRecord(x, gates, c), ix)
    ensures c.gate in gates && Settled(gates[c.gate]) ==> GateResolved(NewRecord(x, gates, c), Some(ix))
    ensures NewRecord(x, gates, c).status == Val("pass") ==> c.ask.Pass?
  {
    hide IdNumber, ValidGrant, UnresolvedDependencies, Reaches, HttpsUrl, PassOrderRefusal, PassGrantRefusal;
    if c.ask.Pass? {
      PassIsResolved(x, gates, c, ix);
    }
  }

  /** Every accepted command keeps the rules, touches one gate, and reopens none. */
  lemma WriterKeepsRules(x: Context, c: Command, es: seq<Entry>)
    requires Decide(x, c).Written?
    requires GatesSound(Stored(x.table), es)
    requires x.ledger.Some? ==> x.ledger == Some(IndexOf(es))
    ensures var gates' := Decide(x, c).gates;
            && GatesSound(gates', es)
            && NoneReopened(Stored(x.table), gates', IndexOf(es))
            && gates'.Keys == Stored(x.table).Keys + {c.gate}
            && forall n :: n in Stored(x.table) && n != c.gate ==> gates'[n] == Stored(x.table)[n]
  {
    hide Accepted, OrderingOk, GateSound, GateResolved, ArgumentsOk, NewRecord, RunRecordsOk, GateRefusal;
    var gates, ix := Stored(x.table), IndexOf(es);
    var gates' := Decide(x, c).gates;
    WriterKeepsOrdering(x, c);
    NotDeclaredIsStored(x, gates, c);
    NewRecordSound(x, gates, c, ix);
    PassesStayOrdered(x, c, es);
    forall n | n in gates && GateResolved(gates[n], Some(ix)) ensures GateResolved(gates'[n], Some(ix)) {
      ResolvedIsSettled(gates[n], ix);
    }
  }

  lemma ResolvedIsSettled(g: Gate, ix: Index)
    ensures GateResolved(g, Some(ix)) ==> Settled(g)
  {
  }

  lemma NotDeclaredIsStored(x: Context, gates: Gates, c: Command)
    requires GateRefusal(x, gates, c).None?
    ensures c.ask.Declare? <==> c.gate !in gates
    ensures c.gate in gates ==> gates[c.gate].Gate?
    ensures c.ask.Pass? ==> PassOrderRefusal(x, gates, gates[c.gate]).None?
  {
    hide ValidGrant, UnresolvedDependencies, Reaches, PassOrderRefusal, PassGrantRefusal;
  }

  lemma PassesStayOrdered(x: Context, c: Command, es: seq<Entry>)
    requires Decide(x, c).Written?
    requires GatesSound(Stored(x.table), es)
    requires x.ledger.Some? ==> x.ledger == Some(IndexOf(es))
    ensures PassesOrdered(Decide(x, c).gates, IndexOf(es))
  {
    hide Accepted, Acyclic, GateSound, GateResolved, ArgumentsOk, RunRecordsOk, GateRefusal, IndexOf, PassOrderRefusal;
    var gates, ix := Stored(x.table), IndexOf(es);
    var gates' := Decide(x, c).gates;
    NotDeclaredIsStored(x, gates, c);
    NewRecordSound(x, gates, c, ix);
    forall m | m in gates' && gates'[m].Gate? && gates'[m].status == Val("pass") ensures WaitsResolved(gates', m, ix) {
      if m == c.gate {
        PassWaitsResolved(x, gates, gates[m], ix);
        assert After(gates', m) == After(gates, m);
      } else {
        assert WaitsResolved(gates, m, ix);
      }
      forall d | d in After(gates', m) ensures d in gates' && GateResolved(gates'[d], Some(ix)) {
        assert d in gates && GateResolved(gates[d], Some(ix));
        ResolvedIsSettled(gates[d], ix);
      }
    }
  }

  // ---- when a gate can be passed ----

  /** Said without a command: the gate is named well, its waits are resolved, and a binding it
      has is a known action with a grant that is valid now. */
  predicate CanPass(x: Context, gates: Gates, n: string) {
    && IsName(n)
    && IsGateIn(gates, n)
    && (forall d :: d in GateAfter(gates[n]) ==> d in gates && GateResolved(gates[d], x.ledger))
    && (Bound(gates[n]) ==>
          && KnownBinding(gates[n]) && x.ledger.Some? && HighWater(x.ledger.value).Some?
          && AnyValidGrant(x.ledger.value, gates[n].binding.value, Some(x.now),
                           Val(FormatId(HighWater(x.ledger.value).value))))
  }

  ghost predicate AcceptedPass(x: Context, n: string, c: Command) {
    c.gate == n && c.ask.Pass? && Decide(x, c).Written?
  }

  predicate Writable(x: Context) {
    !RecordAuthorization.Finished(x.phase) && !x.table.GatesNotAMap?
  }

  /** A pass that leaves nothing to chance: a valid grant if one is needed, and a run record. */
  function PlainPass(x: Context, gates: Gates, n: string): Command
    requires CanPass(x, gates, n)
  {
    var ran := Ran(Val("operator"), Val("ref"), Absent, false);
    if Bound(gates[n]) then
      var numbers := ValidNumbers(x.ledger.value, gates[n].binding.value, Some(x.now),
                                  Val(FormatId(HighWater(x.ledger.value).value)));
      Command(n, "operator", "accepted", Pass([], Some([FormatId(MaxOf(numbers))]), Some(ran)))
    else
      Command(n, "operator", "accepted", Pass([], None, Some(ran)))
  }

  lemma PlainPassArguments(x: Context, gates: Gates, n: string)
    requires CanPass(x, gates, n)
    ensures ArgumentsOk(PlainPass(x, gates, n))
  {
    hide ValidGrant, HighWater, Resolved, AuthorizationSatisfied;
    if Bound(gates[n]) {
      var numbers := ValidNumbers(x.ledger.value, gates[n].binding.value, Some(x.now),
                                  Val(FormatId(HighWater(x.ledger.value).value)));
      FormatRoundTrip(MaxOf(numbers));
    }
    assert "operator"[0] == 'o' && "ref"[0] == 'r' && "accepted"[0] == 'a';
  }

  lemma OrderRefusalExactly(x: Context, gates: Gates, g: Gate)
    ensures PassOrderRefusal(x, gates, g).None? <==>
              forall d :: d in GateAfter(g) ==> d in gates && GateResolved(gates[d], x.ledger)
  {
    hide Resolved, AuthorizationSatisfied;
    var judged := if HasBoundWait(gates, g) then x.ledger else None;
    forall d | d in GateAfter(g)
      ensures (d in gates && if judged.Some? then GateResolved(gates[d], judged) else Resolved(gates[d]))
              <==> d !in UnresolvedDependencies(gates, g, judged) {}
    if PassOrderRefusal(x, gates, g).None? {
      forall d | d in GateAfter(g) ensures d in gates && GateResolved(gates[d], x.ledger) {
        assert d !in UnresolvedDependencies(gates, g, judged);
      }
    }
    if HasBoundWait(gates, g) && x.ledger.None? {
      var d :| d in GateAfter(g) && d in gates && Bound(gates[d]);
      UnreadableBound(gates[d]);
    }
  }

  lemma UnreadableBound(g: Gate)
    ensures Bound(g) ==> !GateResolved(g, None)
  {
  }

  /** Some pass of `n` is accepted exactly when the gate can be passed; `PlainPass` is one. */
  lemma PassExactly(x: Context, n: string)
    requires Writable(x) && OrderingOk(Stored(x.table)) && RunRecordsOk(Stored(x.table))
    ensures (exists c :: AcceptedPass(x, n, c)) <==> CanPass(x, Stored(x.table), n)
    ensures CanPass(x, Stored(x.table), n) ==> AcceptedPass(x, n, PlainPass(x, Stored(x.table), n))
  {
    hide OrderingOk, RunRecordsOk, ValidGrant, GateResolved, HighWater, IndexOf, IdNumber, NewRecord, PassOrderRefusal;
    var gates := Stored(x.table);
    if CanPass(x, gates, n) {
      PlainPassArguments(x, gates, n);
      OrderRefusalExactly(x, gates, gates[n]);
      PlainPassGrant(x, gates, n);
      assert AcceptedPass(x, n, PlainPass(x, gates, n));
    }
    if c :| AcceptedPass(x, n, c) {
      OrderRefusalExactly(x, gates, gates[n]);
      if Bound(gates[n]) {
        AcceptedGrant(x, gates[n], c.ask.authorization);
      }
    }
  }

  lemma PlainPassGrant(x: Context, gates: Gates, n: string)
    requires CanPass(x, gates, n)
    ensures PassGrantRefusal(x, gates[n], PlainPass(x, gates, n).ask.authorization).None?
  {
    hide ValidGrant, HighWater, Resolved, AuthorizationSatisfied;
    if Bound(gates[n]) {
      var through := Val(FormatId(HighWater(x.ledger.value).value));
      var numbers := ValidNumbers(x.ledger.value, gates[n].binding.value, Some(x.now), through);
      ValidNumber(x.ledger.value, MaxOf(numbers), gates[n].binding.value, Some(x.now), through);
    }
  }

  /** A reference the index accepts is one of the valid numbers, whatever its padding. */
  lemma ReferenceIsValidNumber(ix: Index, ref: string, action: string, at: Option<int>, through: Field<string>)
    requires ValidGrant(ix, Val(ref), action, at, through)
    ensures AnyValidGrant(ix, action, at, through)
  {
    var n := IdNumber(Val(ref)).value;
    FormatRoundTrip(n);
    ValidNumber(ix, n, action, at, through);
    assert n in ValidNumbers(ix, action, at, through);
  }

  lemma AcceptedGrant(x: Context, g: Gate, refs: Option<seq<string>>)
    requires Bound(g) && KnownBinding(g) && PassGrantRefusal(x, g, refs).None?
    ensures x.ledger.Some? && HighWater(x.ledger.value).Some?
    ensures AnyValidGrant(x.ledger.value, g.binding.value, Some(x.now), Val(FormatId(HighWater(x.ledger.value).value)))
  {
    hide ValidGrant, HighWater;
    ReferenceIsValidNumber(x.ledger.value, refs.value[0], g.binding.value, Some(x.now),
                           Val(FormatId(HighWater(x.ledger.value).value)));
  }
}
