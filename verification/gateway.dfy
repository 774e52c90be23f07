/** The event gateway's shared store: the delivery ledger, the external-reference mapping and the
    per-task mirrors (scripts/event-gateway.rb). Each method is one locked section. */
module Gateway {
  import opened Text

  datatype RowOutcome =
    | InProgress | Dispatched | DispatchFailed | DuplicateRow
    | RejectedCommand | RejectedIdentity | RejectedPreflight

  datatype Stage = Accepted | ReclaimedStale | Noted(outcome: RowOutcome)

  datatype Row = Row(delivery: string, receivedAt: Stamp, outcome: RowOutcome, task: Option<string>, stages: seq<Stage>)

  /** The outcomes a task's mirror is believed for. */
  predicate Terminal(o: RowOutcome) { o.Dispatched? || o.DispatchFailed? || o.RejectedPreflight? }

  const STALE_SECONDS := 900

  predicate Stale(r: Row, now: int) {
    r.outcome.InProgress? && (r.receivedAt.Instant? ==> now - r.receivedAt.at > STALE_SECONDS)
  }

  // ---- the ledger ----

  /** The position of the first row of a delivery, the length when there is none. */
  function Find(events: seq<Row>, d: string): (i: nat)
    ensures i <= |events|
    ensures i < |events| ==> events[i].delivery == d
    ensures forall k :: 0 <= k < i ==> events[k].delivery != d
  {
    if events == [] then 0
    else if events[0].delivery == d then 0
    else
      var i := Find(events[1..], d);
      assert forall k :: 1 <= k < i + 1 ==> events[k] == events[1..][k - 1];
      i + 1
  }

  function RowOf(events: seq<Row>, d: string): Option<Row> {
    var i := Find(events, d);
    if i < |events| then Some(events[i]) else None
  }

  lemma FindIs(events: seq<Row>, d: string, i: nat)
    requires i <= |events|
    requires i < |events| ==> events[i].delivery == d
    requires forall k :: 0 <= k < i ==> events[k].delivery != d
    ensures Find(events, d) == i
  {
  }

  function NewRow(d: string, now: int): Row {
    Row(d, Instant(now), InProgress, None, [Accepted])
  }

  function ReclaimedRow(r: Row, now: int): Row {
    r.(receivedAt := Instant(now), outcome := InProgress, stages := r.stages + [ReclaimedStale])
  }

  predicate MayReserve(events: seq<Row>, d: string, now: int) {
    RowOf(events, d).Some? ==> Stale(RowOf(events, d).value, now)
  }

  function AfterReserve(events: seq<Row>, d: string, now: int): seq<Row> {
    var i := Find(events, d);
    if !MayReserve(events, d, now) then events
    else if i < |events| then events[i := ReclaimedRow(events[i], now)]
    else events + [NewRow(d, now)]
  }

  function FinalRow(r: Row, o: RowOutcome, task: Option<string>): Row {
    r.(outcome := o, task := if task.Some? then task else r.task, stages := r.stages + [Noted(o)])
  }

  function AfterFinalize(events: seq<Row>, d: string, o: RowOutcome, task: Option<string>): seq<Row> {
    var i := Find(events, d);
    if i < |events| then events[i := FinalRow(events[i], o, task)] else events
  }

  /** Rewriting a delivery's row changes that row and no other delivery's. */
  lemma RewriteRow(events: seq<Row>, d: string, r: Row, e: string)
    requires r.delivery == d && Find(events, d) < |events|
    ensures RowOf(events[Find(events, d) := r], e) == if e == d then Some(r) else RowOf(events, e)
  {
    var i, j := Find(events, d), Find(events, e);
    FindIs(events[i := r], e, j);
  }

  lemma AppendRow(events: seq<Row>, r: Row, e: string)
    requires RowOf(events, r.delivery).None?
    ensures RowOf(events + [r], e) == if e == r.delivery then Some(r) else RowOf(events, e)
  {
    var j := Find(events, e);
    if j < |events| || e == r.delivery {
      FindIs(events + [r], e, j);
    } else {
      FindIs(events + [r], e, |events| + 1);
    }
  }

  lemma ReservedRows(events: seq<Row>, d: string, now: int, e: string)
    requires MayReserve(events, d, now)
    ensures RowOf(AfterReserve(events, d, now), e) ==
              if e != d then RowOf(events, e)
              else if RowOf(events, d).Some? then Some(ReclaimedRow(RowOf(events, d).value, now))
              else Some(NewRow(d, now))
  {
    if RowOf(events, d).Some? {
      RewriteRow(events, d, ReclaimedRow(RowOf(events, d).value, now), e);
    } else {
      AppendRow(events, NewRow(d, now), e);
    }
  }

  lemma FinalizedRows(events: seq<Row>, d: string, o: RowOutcome, task: Option<string>, e: string)
    ensures RowOf(AfterFinalize(events, d, o, task), e) ==
              if e == d && RowOf(events, d).Some? then Some(FinalRow(RowOf(events, d).value, o, task))
              else RowOf(events, e)
  {
    if RowOf(events, d).Some? {
      RewriteRow(events, d, FinalRow(RowOf(events, d).value, o, task), e);
    }
  }

  // ---- minted ids ----

  const MINT_PREFIX := "TASK-GW-"

  /** The number of a minted id, zero for any other text. */
  function MintNumber(id: string): nat {
    if |id| > |MINT_PREFIX| && id[..|MINT_PREFIX|] == MINT_PREFIX && AllDigits(id[|MINT_PREFIX|..])
    then NumberOf(id[|MINT_PREFIX|..]) else 0
  }

  function MintedId(n: nat): string { MINT_PREFIX + Decimal(n) }

  lemma MintedIdNumber(n: nat)
    ensures MintNumber(MintedId(n)) == n
  {
    NumberOfDecimal(n);
    assert MintedId(n)[|MINT_PREFIX|..] == Decimal(n);
    assert MintedId(n)[..|MINT_PREFIX|] == MINT_PREFIX;
  }

  /** The largest number in use, over the directories and the mapping. */
  ghost predicate IsHighest(ids: set<string>, n: nat) {
    && (forall id :: id in ids ==> MintNumber(id) <= n)
    && (n > 0 ==> exists id :: id in ids && MintNumber(id) == n)
  }

  lemma HighestIsUnique(ids: set<string>, m: nat, n: nat)
    requires IsHighest(ids, m) && IsHighest(ids, n)
    ensures m == n
  {
  }

  lemma {:induction false} HighestExists(ids: set<string>)
    ensures exists n: nat :: IsHighest(ids, n)
  {
    if ids == {} {
      assert IsHighest(ids, 0);
    } else {
      var id := AnElement(ids);
      HighestExists(ids - {id});
      var n: nat :| IsHighest(ids - {id}, n);
      var top := if n < MintNumber(id) then MintNumber(id) else n;
      assert forall other :: other in ids ==> other == id || other in ids - {id};
      assert IsHighest(ids, top);
    }
  }

  ghost function Highest(ids: set<string>): (n: nat)
    ensures IsHighest(ids, n)
  {
    HighestExists(ids);
    var n: nat :| IsHighest(ids, n);
    n
  }

  /** The next id is unused by every mapped reference and every directory. */
  lemma NextIdIsFresh(ids: set<string>)
    ensures MintedId(Highest(ids) + 1) !in ids
  {
    MintedIdNumber(Highest(ids) + 1);
  }

  ghost function AfterMint(mapping: map<string, string>, dirs: set<string>, ref: string): map<string, string> {
    if ref in mapping then mapping else mapping[ref := MintedId(Highest(mapping.Values + dirs) + 1)]
  }

  // ---- the store ----

  type Mirror = map<string, RowOutcome>

  class GatewayStore {
    var events: seq<Row>
    var mapping: map<string, string>
    var mirrors: map<string, Mirror>

    constructor ()
      ensures events == [] && mapping == map[] && mirrors == map[]
    {
      events, mapping, mirrors := [], map[], map[];
    }

    method FindRow(d: string) returns (i: nat)
      ensures i == Find(events, d)
    {
      i := 0;
      while i < |events| && events[i].delivery != d
        invariant i <= |events|
        invariant forall k :: 0 <= k < i ==> events[k].delivery != d
      {
        i := i + 1;
      }
      FindIs(events, d, i);
    }

    /** Checks and reserves in one locked section; a stale reservation is reclaimed in place. */
    method Reserve(d: string, now: int) returns (won: bool)
      modifies this`events
      ensures won <==> MayReserve(old(events), d, now)
      ensures events == AfterReserve(old(events), d, now)
    {
      var i := FindRow(d);
      if i < |events| && Stale(events[i], now) {
        events := events[i := events[i].(stages := events[i].stages + [ReclaimedStale])];
        events := events[i := events[i].(outcome := InProgress, receivedAt := Instant(now))];
        return true;
      }
      if i < |events| {
        return false;
      }
      events := events + [NewRow(d, now)];
      return true;
    }

    method Finalize(d: string, o: RowOutcome, task: Option<string>)
      modifies this`events
      ensures events == AfterFinalize(old(events), d, o, task)
    {
      var i := FindRow(d);
      if i == |events| {
        return;
      }
      events := events[i := events[i].(outcome := o)];
      if task.Some? {
        events := events[i := events[i].(task := task)];
      }
      events := events[i := events[i].(stages := events[i].stages + [Noted(o)])];
    }

    /** Mints under the lock: an id claimed in the mapping counts whether or not its directory
        exists yet. */
    method MintAndMap(ref: string, dirs: set<string>) returns (task: string)
      modifies this`mapping
      ensures mapping == AfterMint(old(mapping), dirs, ref)
      ensures ref in mapping && task == mapping[ref]
    {
      if ref in mapping {
        return mapping[ref];
      }
      var top := HighestOf(mapping.Values + dirs);
      task := MintedId(top + 1);
      mapping := mapping[ref := task];
    }

    /** Replaces the delivery's entry in the task's mirror, if the task has a directory. */
    method MirrorToTask(task: string, d: string, o: RowOutcome, dirs: set<string>)
      modifies this`mirrors
      ensures mirrors == if task in dirs then old(mirrors)[task := MirrorOf(old(mirrors), task)[d := o]]
              else old(mirrors)
    {
      if task !in dirs {
        return;
      }
      mirrors := mirrors[task := MirrorOf(mirrors, task)[d := o]];
    }
  }

  function MirrorOf(mirrors: map<string, Mirror>, task: string): Mirror {
    if task in mirrors then mirrors[task] else map[]
  }

  /** Does the task's own mirror show that this delivery already ran? */
  predicate MirrorShowsRun(mirrors: map<string, Mirror>, task: string, d: string) {
    d in MirrorOf(mirrors, task) && Terminal(MirrorOf(mirrors, task)[d])
  }

  method HighestOf(ids: set<string>) returns (top: nat)
    ensures top == Highest(ids)
  {
    hide MintNumber, MINT_PREFIX;
    top := 0;
    var todo := ids;
    while todo != {}
      invariant todo <= ids
      invariant IsHighest(ids - todo, top)
    {
      var id: string :| id in todo;
      assert forall other :: other in ids - (todo - {id}) ==> other == id || other in ids - todo;
      todo := todo - {id};
      var n := MintNumber(id);
      if n > top {
        top := n;
      }
    }
    assert ids - todo == ids;
    HighestIsUnique(ids, top, Highest(ids));
  }
}
