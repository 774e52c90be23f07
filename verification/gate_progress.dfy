/** Whole runs over the gates: ledger growth reopens nothing, and a task with its grants in
    place can always be brought to "every gate resolved". */
module GateProgress {
  import opened Text
  import opened AuthorizationLedger
  import opened LedgerIndex
  import opened CompletionGuard
  import opened GateOrdering
  import opened GateWriter
  import opened GateRules

  /** Later grants and revokes change no judgement on record and keep every rule of the gates. */
  lemma LedgerGrowthKeepsRules(gates: Gates, es: seq<Entry>, ext: seq<Entry>)
    requires GatesSound(gates, es) && Accepted(es + ext)
    ensures GatesSound(gates, es + ext)
    ensures forall n :: n in gates ==>
              GateResolved(gates[n], Some(IndexOf(es + ext))) == GateResolved(gates[n], Some(IndexOf(es)))
  {
    hide Accepted, OrderingOk, IndexOf, ValidGrant, RunRecordOk, IdNumber, RanOk;
    forall n | n in gates
      ensures GateResolved(gates[n], Some(IndexOf(es + ext))) == GateResolved(gates[n], Some(IndexOf(es)))
    {
      assert GateSound(n, gates[n], IndexOf(es));
      RecordedJudgementStable(gates[n], es, ext);
    }
    forall n | n in gates && gates[n].Gate? && gates[n].status == Val("pass")
      ensures WaitsResolved(gates, n, IndexOf(es + ext))
    {
      assert WaitsResolved(gates, n, IndexOf(es));
    }
  }

  /** The commands `cs`, run one after another in an otherwise unchanged task, are all accepted
      and leave `last`. */
  ghost predicate Runs(x: Context, cs: seq<Command>, last: Gates)
    decreases |cs|
  {
    if cs == [] then Stored(x.table) == last
    else Decide(x, cs[0]).Written? && Runs(x.(table := GateMap(Decide(x, cs[0]).gates)), cs[1..], last)
  }

  ghost function OpenGates(gates: Gates, ix: Index): set<string> {
    set n | n in gates && !GateResolved(gates[n], Some(ix))
  }

  /** Every open gate that is bound has a grant of its action that is valid now. */
  ghost predicate GrantsInPlace(x: Context, gates: Gates, ix: Index) {
    forall n :: n in OpenGates(gates, ix) && Bound(gates[n]) ==>
      && gates[n].binding.Val? && HighWater(ix).Some?
      && AnyValidGrant(ix, gates[n].binding.value, Some(x.now), Val(FormatId(HighWater(ix).value)))
  }

  /** An open gate whose waits are resolved can be passed. */
  lemma FirstOpenGateCanPass(x: Context, es: seq<Entry>, n: string)
    requires var gates := Stored(x.table);
             && GatesSound(gates, es) && x.ledger == Some(IndexOf(es))
             && GrantsInPlace(x, gates, IndexOf(es))
             && n in OpenGates(gates, IndexOf(es))
             && forall d :: d in After(gates, n) ==> d !in OpenGates(gates, IndexOf(es))
    ensures CanPass(x, Stored(x.table), n)
  {
    hide Accepted, Acyclic, ValidGrant, IdNumber, IndexOf, HighWater, GateResolved, AnyValidGrant, RunRecordOk;
    var gates := Stored(x.table);
    assert GateSound(n, gates[n], IndexOf(es));
    assert OrderingShapeOk(gates, n);
  }

  /** No dead end: with the grants in place, one pass per open gate, in some order, is accepted
      step by step and leaves every gate resolved. */
  lemma {:induction false} EveryGateCanBeResolved(x: Context, es: seq<Entry>) returns (cs: seq<Command>, last: Gates)
    requires Writable(x) && GatesSound(Stored(x.table), es) && x.ledger == Some(IndexOf(es))
    requires GrantsInPlace(x, Stored(x.table), IndexOf(es))
    ensures Runs(x, cs, last)
    ensures |cs| == |OpenGates(Stored(x.table), IndexOf(es))| && forall i :: 0 <= i < |cs| ==> cs[i].ask.Pass?
    ensures last.Keys == Stored(x.table).Keys && OpenGates(last, IndexOf(es)) == {}
    decreases |OpenGates(Stored(x.table), IndexOf(es))|
  {
    hide Accepted, ValidGrant, IdNumber, IndexOf, HighWater, GateResolved, AnyValidGrant, OrderingOk, GateSound,
         Decide, CanPass;
    var gates, ix := Stored(x.table), IndexOf(es);
    var open := OpenGates(gates, ix);
    if open == {} {
      return [], gates;
    }
    SoundMeansReadable(gates, es);
    var n := SomeGateIsFirst(gates, open);
    FirstOpenGateCanPass(x, es, n);
    PassExactly(x, n);
    var c := PlainPass(x, gates, n);
    WrittenGates(x, c);
    WriterKeepsRules(x, c, es);
    PassedGateIsResolved(x, c, es);
    var gates' := Decide(x, c).gates;
    var x' := x.(table := GateMap(gates'));
    assert OpenGates(gates', ix) == open - {n};
    var rest;
    rest, last := EveryGateCanBeResolved(x', es);
    cs := [c] + rest;
    assert cs[1..] == rest;
  }

  lemma SoundMeansReadable(gates: Gates, es: seq<Entry>)
    requires GatesSound(gates, es)
    ensures OrderingOk(gates) && RunRecordsOk(gates)
  {
    hide OrderingOk, RunRecordOk, GateResolved, IndexOf, Accepted;
  }

  lemma WrittenGates(x: Context, c: Command)
    requires Decide(x, c).Written?
    ensures Decide(x, c).gates == Stored(x.table)[c.gate := NewRecord(x, Stored(x.table), c)]
  {
    hide OrderingOk, RunRecordsOk, GateRefusal, ArgumentsOk, NewRecord;
  }

  lemma PassedGateIsResolved(x: Context, c: Command, es: seq<Entry>)
    requires Decide(x, c).Written? && c.ask.Pass?
    requires x.ledger.Some? ==> x.ledger == Some(IndexOf(es))
    ensures c.gate in Stored(x.table)
    ensures GateResolved(Decide(x, c).gates[c.gate], Some(IndexOf(es)))
  {
    hide OrderingOk, RunRecordsOk, GateRefusal, ArgumentsOk, NewRecord, GateResolved, IndexOf;
    NotDeclaredIsStored(x, Stored(x.table), c);
    PassIsResolved(x, Stored(x.table), c, IndexOf(es));
  }
}
