/** Any number of gateway processes over one store. A process is its place in run_pipeline; each
    locked section, the dispatch and a crash are steps of their own, in any interleaving. */
module GatewayRuns {
  import opened Text
  import opened Gateway

  /** A normalized event; `named` says its explicit task id has the shape of one. */
  datatype Envelope = Envelope(delivery: string, task: Option<string>, named: bool, ref: string)

  datatype Pc =
    | Submitted
    | Reserved
    | Commanded(pm: bool)
    | Identified(task: string)
    | Checking(known: Option<string>)
    | Minting
    | Minted(task: string)
    | Ready(task: string)
    | Ran(task: string, ok: bool)
    | Mirroring(task: string)
    | Stopped

  datatype Proc = Proc(envelope: Envelope, pc: Pc)

  /** `dispatches` lists the deliveries for which run-agent.sh was invoked. */
  datatype World = World(
    procs: map<nat, Proc>, events: seq<Row>, mapping: map<string, string>, mirrors: map<string, Mirror>,
    dirs: set<string>, clock: int, dispatches: seq<string>)

  /** What the environment answers: the command's role if any, the pre-check, and the driver. */
  datatype Choice = Choice(command: Option<bool>, allowed: bool, dryRun: bool, ok: bool)

  datatype Action =
    | Submit(p: nat, envelope: Envelope)
    | Advance(p: nat, choice: Choice)
    | Crash(p: nat)
    | Wait(seconds: nat)
    | MakeDirectory(task: string)
    | LoseLedger

  datatype Identity = Resolved(task: string) | Mint | Reject

  function ResolveIdentity(w: World, e: Envelope, pm: bool): Identity {
    if e.task.Some? then
      if e.named && e.task.value in w.dirs then Resolved(e.task.value) else Reject
    else
      var ref := Strip(e.ref);
      if ref == "" then Reject
      else if ref in w.mapping && w.mapping[ref] in w.dirs then Resolved(w.mapping[ref])
      else if pm then Mint
      else Reject
  }

  function Go(w: World, p: nat, pc: Pc): World
    requires p in w.procs
  {
    w.(procs := w.procs[p := w.procs[p].(pc := pc)])
  }

  /** Records an outcome in the ledger and moves on. */
  function Note(w: World, p: nat, o: RowOutcome, task: Option<string>, pc: Pc): World
    requires p in w.procs
  {
    Go(w.(events := AfterFinalize(w.events, w.procs[p].envelope.delivery, o, task)), p, pc)
  }

  ghost function Step(w: World, p: nat, c: Choice): World
    requires p in w.procs
  {
    var e, d := w.procs[p].envelope, w.procs[p].envelope.delivery;
    match w.procs[p].pc
    case Submitted =>
      if MayReserve(w.events, d, w.clock) then Go(w.(events := AfterReserve(w.events, d, w.clock)), p, Reserved)
      else Go(w, p, Stopped)
    case Reserved =>
      if c.command.None? then Note(w, p, RejectedCommand, None, Stopped)
      else Note(w, p, InProgress, None, Commanded(c.command.value))
    case Commanded(pm) =>
      (match ResolveIdentity(w, e, pm)
       case Resolved(task) => Note(w, p, InProgress, Some(task), Identified(task))
       case Mint => Note(w, p, InProgress, None, Checking(None))
       case Reject => Note(w, p, RejectedIdentity, None, Stopped))
    case Identified(task) =>
      if MirrorShowsRun(w.mirrors, task, d) then Note(w, p, DuplicateRow, Some(task), Stopped)
      else Go(w, p, Checking(Some(task)))
    case Checking(task) =>
      if !c.allowed then
        Note(w, p, RejectedPreflight, task, if task.Some? then Mirroring(task.value) else Stopped)
      else Go(w, p, if task.Some? then Ready(task.value) else Minting)
    case Minting =>
      var mapping := AfterMint(w.mapping, w.dirs, Strip(e.ref));
      Go(w.(mapping := mapping), p, Minted(mapping[Strip(e.ref)]))
    case Minted(task) => Note(w, p, InProgress, Some(task), Ready(task))
    case Ready(task) =>
      if c.dryRun then Note(w, p, Dispatched, Some(task), Mirroring(task))
      else Go(w.(dispatches := w.dispatches + [d]), p, Ran(task, c.ok))
    case Ran(task, ok) => Note(w, p, if ok then Dispatched else DispatchFailed, Some(task), Mirroring(task))
    case Mirroring(task) =>
      var row := RowOf(w.events, d);
      if row.None? || task !in w.dirs then Go(w, p, Stopped)
      else Go(w.(mirrors := w.mirrors[task := MirrorOf(w.mirrors, task)[d := row.value.outcome]]), p, Stopped)
    case Stopped => w
  }

  ghost function Next(w: World, a: Action): World {
    match a
    case Submit(p, e) => if p in w.procs then w else w.(procs := w.procs[p := Proc(e, Submitted)])
    case Advance(p, c) => if p in w.procs then Step(w, p, c) else w
    case Crash(p) => if p in w.procs then Go(w, p, Stopped) else w
    case Wait(seconds) => w.(clock := w.clock + seconds)
    case MakeDirectory(task) => w.(dirs := w.dirs + {task})
    case LoseLedger => w.(events := [])
  }

  ghost function Run(w: World, acts: seq<Action>): World
    decreases |acts|
  {
    if acts == [] then w else Run(Next(w, acts[0]), acts[1..])
  }

  // ---- at most one dispatch per reservation ----

  /** A process that holds a reservation and has not invoked the driver yet. */
  predicate HoldsTicket(pc: Pc) {
    match pc
    case Submitted => false
    case Ran(_, _) => false
    case Mirroring(_) => false
    case Stopped => false
    case _ => true
  }

  function Tickets(procs: map<nat, Proc>, d: string): set<nat> {
    set p | p in procs && procs[p].envelope.delivery == d && HoldsTicket(procs[p].pc)
  }

  function Count(ds: seq<string>, d: string): nat {
    if ds == [] then 0 else Count(ds[..|ds| - 1], d) + (if ds[|ds| - 1] == d then 1 else 0)
  }

  function Reclaims(stages: seq<Stage>): nat {
    if stages == [] then 0
    else Reclaims(stages[..|stages| - 1]) + (if stages[|stages| - 1].ReclaimedStale? then 1 else 0)
  }

  /** How often the delivery was reserved, as its own row tells. */
  function Reservations(events: seq<Row>, d: string): nat {
    if RowOf(events, d).Some? then 1 + Reclaims(RowOf(events, d).value.stages) else 0
  }

  ghost predicate Accounted(w: World, d: string) {
    |Tickets(w.procs, d)| + Count(w.dispatches, d) <= Reservations(w.events, d)
  }

  lemma ReclaimsAppend(stages: seq<Stage>, s: Stage)
    ensures Reclaims(stages + [s]) == Reclaims(stages) + (if s.ReclaimedStale? then 1 else 0)
  {
    assert (stages + [s])[..|stages|] == stages;
  }

  lemma FinalizeKeepsReservations(events: seq<Row>, d: string, o: RowOutcome, task: Option<string>, e: string)
    ensures Reservations(AfterFinalize(events, d, o, task), e) == Reservations(events, e)
  {
    hide AfterFinalize, RowOf, Reclaims;
    FinalizedRows(events, d, o, task, e);
    if e == d && RowOf(events, d).Some? {
      ReclaimsAppend(RowOf(events, d).value.stages, Noted(o));
    }
  }

  lemma ReserveAddsOne(events: seq<Row>, d: string, now: int, e: string)
    requires MayReserve(events, d, now)
    ensures Reservations(AfterReserve(events, d, now), e) == Reservations(events, e) + (if e == d then 1 else 0)
  {
    hide AfterReserve, RowOf, Reclaims, MayReserve;
    ReservedRows(events, d, now, e);
    if RowOf(events, d).Some? {
      ReclaimsAppend(RowOf(events, d).value.stages, ReclaimedStale);
    } else {
      assert [Accepted][..0] == [];
      assert Reclaims([Accepted]) == 0 by { ReclaimsAppend([], Accepted); assert [] + [Accepted] == [Accepted];
                                            assert Reclaims([]) == 0 by { NoStages(); } }
    }
  }

  lemma NoStages()
    ensures Reclaims([]) == 0
  {
  }

  /** Moving one process changes only that process's ticket. */
  lemma TicketsAfter(procs: map<nat, Proc>, p: nat, pc: Pc, d: string)
    requires p in procs
    ensures |Tickets(procs[p := procs[p].(pc := pc)], d)| - |Tickets(procs, d)| ==
              if procs[p].envelope.delivery != d || HoldsTicket(pc) == HoldsTicket(procs[p].pc) then 0
              else if HoldsTicket(pc) then 1 else -1
  {
    hide HoldsTicket;
    var before, after := Tickets(procs, d), Tickets(procs[p := procs[p].(pc := pc)], d);
    if procs[p].envelope.delivery != d || HoldsTicket(pc) == HoldsTicket(procs[p].pc) {
      assert after == before;
    } else if HoldsTicket(pc) {
      assert after == before + {p} && p !in before;
    } else {
      assert before == after + {p} && p !in after;
    }
  }

  lemma CountAppend(ds: seq<string>, x: string, d: string)
    ensures Count(ds + [x], d) == Count(ds, d) + (if x == d then 1 else 0)
  {
    assert (ds + [x])[..|ds|] == ds;
  }

  lemma StepAccounted(w: World, p: nat, c: Choice, d: string)
    requires p in w.procs && Accounted(w, d)
    ensures Accounted(Step(w, p, c), d)
  {
    hide Tickets, Count, Reservations, AfterReserve, AfterFinalize, MayReserve, ResolveIdentity, AfterMint,
         MirrorShowsRun, RowOf, Strip;
    var v, mine := Step(w, p, c), w.procs[p].envelope.delivery;
    if !w.procs[p].pc.Stopped? {
      TicketsAfter(w.procs, p, v.procs[p].pc, d);
      CountAppend(w.dispatches, mine, d);
      if !w.procs[p].pc.Submitted? {
        StepEvents(w, p, c, d);
      } else if MayReserve(w.events, mine, w.clock) {
        ReserveAddsOne(w.events, mine, w.clock, d);
      }
    }
  }

  /** Apart from a reservation, a step leaves every delivery's number of reservations alone. */
  lemma StepEvents(w: World, p: nat, c: Choice, d: string)
    requires p in w.procs && !w.procs[p].pc.Submitted?
    ensures Reservations(Step(w, p, c).events, d) == Reservations(w.events, d)
  {
    hide Reservations, AfterReserve, AfterFinalize, MayReserve, ResolveIdentity, AfterMint, MirrorShowsRun, RowOf,
         Strip;
    forall o, task ensures Reservations(AfterFinalize(w.events, w.procs[p].envelope.delivery, o, task), d) ==
        Reservations(w.events, d) {
      FinalizeKeepsReservations(w.events, w.procs[p].envelope.delivery, o, task, d);
    }
  }

  predicate KeepsLedger(a: Action) { !a.LoseLedger? }

  lemma NextAccounted(w: World, a: Action, d: string)
    requires Accounted(w, d) && KeepsLedger(a)
    ensures Accounted(Next(w, a), d)
  {
    hide Reservations, Count, HoldsTicket, Step;
    var v := Next(w, a);
    match a
    case Submit(p, e) =>
      if p !in w.procs {
        SubmittedHasNoTicket(w.procs, p, e, d);
      }
    case Advance(p, c) =>
      if p in w.procs { StepAccounted(w, p, c, d); }
    case Crash(p) =>
      if p in w.procs { StoppedHasNoTicket(); TicketsAfter(w.procs, p, Stopped, d); }
    case Wait(_) => assert v.procs == w.procs;
    case MakeDirectory(_) => assert v.procs == w.procs;
  }

  lemma SubmittedHasNoTicket(procs: map<nat, Proc>, p: nat, e: Envelope, d: string)
    requires p !in procs
    ensures Tickets(procs[p := Proc(e, Submitted)], d) == Tickets(procs, d)
  {
  }

  lemma StoppedHasNoTicket()
    ensures !HoldsTicket(Stopped)
  {
  }

  lemma {:induction false} RunAccounted(w: World, acts: seq<Action>, d: string)
    requires Accounted(w, d) && forall a :: a in acts ==> KeepsLedger(a)
    ensures Accounted(Run(w, acts), d)
    decreases |acts|
  {
    hide Accounted, Next, KeepsLedger;
    if acts != [] {
      NextAccounted(w, acts[0], d);
      RunAccounted(Next(w, acts[0]), acts[1..], d);
    }
  }

  /** A gateway as installed: no process, no delivery, nothing dispatched. */
  predicate Fresh(w: World) {
    w.procs == map[] && w.events == [] && w.dispatches == []
  }

  /** However many processes deliver the same event, in whatever interleaving and whoever crashes,
      the driver is invoked for it at most once more than its row was reclaimed as stale. */
  lemma DispatchesAreReserved(w: World, acts: seq<Action>, d: string)
    requires Fresh(w) && forall a :: a in acts ==> KeepsLedger(a)
    ensures Count(Run(w, acts).dispatches, d) <= Reservations(Run(w, acts).events, d)
  {
    hide Run, Count, Reservations;
    assert Tickets(w.procs, d) == {};
    assert Count([], d) == 0 by { NothingCounted(d); }
    RunAccounted(w, acts, d);
  }

  lemma NothingCounted(d: string)
    ensures Count([], d) == 0
  {
  }

  // ---- no reservation outlives the window ----

  /** The step is not a delivery finding a reservation that is still in progress after the window. */
  predicate FindsNoneStale(w: World, a: Action) {
    a.Advance? && a.p in w.procs && w.procs[a.p].pc.Submitted? ==>
      var row := RowOf(w.events, w.procs[a.p].envelope.delivery);
      row.Some? ==> !Stale(row.value, w.clock)
  }

  ghost predicate NoneStale(w: World, acts: seq<Action>)
    decreases |acts|
  {
    acts != [] ==> FindsNoneStale(w, acts[0]) && KeepsLedger(acts[0]) && NoneStale(Next(w, acts[0]), acts[1..])
  }

  lemma NoReclaimWithoutStale(w: World, a: Action, d: string)
    requires FindsNoneStale(w, a) && KeepsLedger(a) && Reservations(w.events, d) <= 1
    ensures Reservations(Next(w, a).events, d) <= 1
  {
    hide Reservations, AfterReserve, AfterFinalize, ResolveIdentity, AfterMint, MirrorShowsRun, Stale, Strip;
    if a.Advance? && a.p in w.procs {
      if w.procs[a.p].pc.Submitted? {
        var mine := w.procs[a.p].envelope.delivery;
        if MayReserve(w.events, mine, w.clock) {
          ReserveAddsOne(w.events, mine, w.clock, d);
          NoRowNoReservation(w.events, mine);
        }
      } else {
        StepEvents(w, a.p, a.choice, d);
      }
    }
  }

  lemma NoRowNoReservation(events: seq<Row>, d: string)
    ensures RowOf(events, d).None? ==> Reservations(events, d) == 0
  {
  }

  lemma {:induction false} OneReservation(w: World, acts: seq<Action>, d: string)
    requires NoneStale(w, acts) && Reservations(w.events, d) <= 1
    ensures Reservations(Run(w, acts).events, d) <= 1
    ensures forall a :: a in acts ==> KeepsLedger(a)
    decreases |acts|
  {
    hide Next, FindsNoneStale, Reservations, KeepsLedger;
    if acts != [] {
      NoReclaimWithoutStale(w, acts[0], d);
      OneReservation(Next(w, acts[0]), acts[1..], d);
      assert acts == [acts[0]] + acts[1..];
    }
  }

  /** At most once: where no reservation outlives the window, an event is dispatched at most once. */
  lemma AtMostOnce(w: World, acts: seq<Action>, d: string)
    requires Fresh(w) && NoneStale(w, acts)
    ensures Count(Run(w, acts).dispatches, d) <= 1
  {
    hide Run, Count;
    OneReservation(w, acts, d);
    DispatchesAreReserved(w, acts, d);
  }

  // ---- exactly which reclaim is harmful ----

  /** At most one process may still dispatch the event, and none if it was dispatched. */
  ghost predicate OnePath(w: World, d: string) {
    |Tickets(w.procs, d)| + Count(w.dispatches, d) <= 1
  }

  /** The step reclaims a stale reservation whose holder is still at work, or has already dispatched. */
  ghost predicate ReclaimsLive(w: World, a: Action, d: string) {
    && a.Advance? && a.p in w.procs && w.procs[a.p].pc.Submitted? && w.procs[a.p].envelope.delivery == d
    && RowOf(w.events, d).Some? && Stale(RowOf(w.events, d).value, w.clock)
    && |Tickets(w.procs, d)| + Count(w.dispatches, d) > 0
  }

  lemma StepOnePath(w: World, p: nat, c: Choice, d: string)
    requires p in w.procs && Accounted(w, d) && OnePath(w, d)
    ensures OnePath(Step(w, p, c), d) <==> !ReclaimsLive(w, Advance(p, c), d)
  {
    hide Tickets, Count, Reservations, AfterReserve, AfterFinalize, ResolveIdentity, AfterMint, MirrorShowsRun, RowOf,
         Strip, Stale;
    var v, mine := Step(w, p, c), w.procs[p].envelope.delivery;
    if !w.procs[p].pc.Stopped? {
      TicketsAfter(w.procs, p, v.procs[p].pc, d);
      CountAppend(w.dispatches, mine, d);
      NoRowNoReservation(w.events, d);
    }
  }

  /** One action opens a second way to the driver exactly when it reclaims a reservation whose holder
      had not died before dispatching: reclaiming after a crash is harmless. */
  lemma OnePathExactly(w: World, a: Action, d: string)
    requires Accounted(w, d) && OnePath(w, d)
    ensures OnePath(Next(w, a), d) <==> !ReclaimsLive(w, a, d)
  {
    hide Reservations, Count, HoldsTicket, Step, RowOf, Stale;
    match a
    case Submit(p, e) =>
      if p !in w.procs {
        SubmittedHasNoTicket(w.procs, p, e, d);
      }
    case Advance(p, c) =>
      if p in w.procs { StepOnePath(w, p, c, d); }
    case Crash(p) =>
      if p in w.procs { StoppedHasNoTicket(); TicketsAfter(w.procs, p, Stopped, d); }
    case Wait(_) => assert Next(w, a).procs == w.procs;
    case MakeDirectory(_) => assert Next(w, a).procs == w.procs;
    case LoseLedger => assert Next(w, a).procs == w.procs;
  }

  ghost predicate NoLiveReclaim(w: World, acts: seq<Action>, d: string)
    decreases |acts|
  {
    acts != [] ==> !ReclaimsLive(w, acts[0], d) && KeepsLedger(acts[0]) && NoLiveReclaim(Next(w, acts[0]), acts[1..], d)
  }

  /** So an event is dispatched at most once over every run, crashes and reclaims after them
      included, in which no live holder is reclaimed. */
  lemma {:induction false} AtMostOnceWithCrashes(w: World, acts: seq<Action>, d: string)
    requires Accounted(w, d) && OnePath(w, d) && NoLiveReclaim(w, acts, d)
    ensures Count(Run(w, acts).dispatches, d) <= 1
    decreases |acts|
  {
    hide Next, Accounted, ReclaimsLive, KeepsLedger, Count;
    if acts != [] {
      NextAccounted(w, acts[0], d);
      OnePathExactly(w, acts[0], d);
      AtMostOnceWithCrashes(Next(w, acts[0]), acts[1..], d);
    }
  }

  /** Six advances take a process from its submission through the driver call. */
  function SixAdvances(p: nat, c: Choice): seq<Action> {
    [Advance(p, c), Advance(p, c), Advance(p, c), Advance(p, c), Advance(p, c), Advance(p, c)]
  }

  const EASY := Choice(Some(false), true, false, true)

  lemma SixSteps(w: World, p: nat, c: Choice, v1: World, v2: World, v3: World, v4: World, v5: World, v6: World)
    requires v1 == Next(w, Advance(p, c)) && v2 == Next(v1, Advance(p, c)) && v3 == Next(v2, Advance(p, c))
    requires v4 == Next(v3, Advance(p, c)) && v5 == Next(v4, Advance(p, c)) && v6 == Next(v5, Advance(p, c))
    ensures Run(w, SixAdvances(p, c)) == v6
  {
    hide Next;
    var a := Advance(p, c);
    assert SixAdvances(p, c)[1..] == [a, a, a, a, a] && [a, a, a, a, a][1..] == [a, a, a, a]
           && [a, a, a, a][1..] == [a, a, a];
    assert [a, a, a][1..] == [a, a] && [a, a][1..] == [a] && [a][1..] == [];
    assert Run(v6, []) == v6;
    assert Run(v5, [a]) == v6;
    assert Run(v4, [a, a]) == v6;
    assert Run(v3, [a, a, a]) == v6;
    assert Run(v2, [a, a, a, a]) == v6;
    assert Run(v1, [a, a, a, a, a]) == v6;
  }

  lemma DispatchAlone(w: World, p: nat) returns (v: World)
    requires p in w.procs && w.procs[p].pc.Submitted? && w.mirrors == map[]
    requires var e := w.procs[p].envelope;
             e.named && e.task == Some("TASK-1") && "TASK-1" in w.dirs && MayReserve(w.events, e.delivery, w.clock)
    ensures v == Run(w, SixAdvances(p, EASY))
    ensures v.dispatches == w.dispatches + [w.procs[p].envelope.delivery] && v.mirrors == map[]
    ensures v.dirs == w.dirs && v.clock == w.clock
    ensures v.procs == w.procs[p := Proc(w.procs[p].envelope, Ran("TASK-1", true))]
    ensures RowOf(v.events, w.procs[p].envelope.delivery).Some?
    ensures var r := RowOf(v.events, w.procs[p].envelope.delivery).value;
              r.outcome.InProgress? && r.receivedAt == Instant(w.clock)
  {
    hide Run, RowOf, AfterReserve, AfterFinalize, MayReserve, Strip;
    var d := w.procs[p].envelope.delivery;
    var a := Advance(p, EASY);
    var v1 := Next(w, a);
    var v2 := Next(v1, a);
    var v3 := Next(v2, a);
    var v4 := Next(v3, a);
    var v5 := Next(v4, a);
    v := Next(v5, a);
    SixSteps(w, p, EASY, v1, v2, v3, v4, v5, v);
    assert v1.procs[p].pc == Reserved;
    assert v2.procs[p].pc == Commanded(false) && v3.procs[p].pc == Identified("TASK-1");
    assert !MirrorShowsRun(v3.mirrors, "TASK-1", d);
    assert v4.procs[p].pc == Checking(Some("TASK-1")) && v5.procs[p].pc == Ready("TASK-1");
    ReservedRows(w.events, d, w.clock, d);
    FinalizedRows(v1.events, d, InProgress, None, d);
    FinalizedRows(v2.events, d, InProgress, Some("TASK-1"), d);
    assert v.events == v3.events;
  }

  /** The window matters: a driver call slower than it lets a retry dispatch the same event again. */
  lemma SlowDispatchRunsTwice() returns (w: World, acts: seq<Action>, d: string)
    ensures Fresh(w) && forall a :: a in acts ==> KeepsLedger(a)
    ensures Count(Run(w, acts).dispatches, d) == 2
  {
    hide Strip, Next, Find, SixAdvances;
    d := "delivery-1";
    var e := Envelope(d, Some("TASK-1"), true, "");
    w := World(map[], [], map[], map[], {"TASK-1"}, 0, []);
    var first, between, second := [Submit(0, e)], [Wait(901), Submit(1, e)], SixAdvances(1, EASY);
    acts := first + (SixAdvances(0, EASY) + (between + second));
    OnlyAdvances(0, EASY);
    OnlyAdvances(1, EASY);
    var w0 := w.(procs := map[0 := Proc(e, Submitted)]);
    SubmitAlone(w, 0, e);
    var w1 := DispatchAlone(w0, 0);
    WaitAndSubmit(w1, 901, 1, e);
    var late := w1.(clock := w1.clock + 901, procs := w1.procs[1 := Proc(e, Submitted)]);
    var w2 := DispatchAlone(late, 1);
    RunConcat(w, first, SixAdvances(0, EASY) + (between + second));
    RunConcat(w0, SixAdvances(0, EASY), between + second);
    RunConcat(w1, between, second);
    CountAppend([], d, d);
    CountAppend([d], d, d);
    assert [] + [d] == [d] && Count([], d) == 0;
  }

  lemma OnlyAdvances(p: nat, c: Choice)
    ensures forall a :: a in SixAdvances(p, c) ==> KeepsLedger(a)
  {
  }

  lemma SubmitAlone(w: World, p: nat, e: Envelope)
    requires p !in w.procs
    ensures Run(w, [Submit(p, e)]) == w.(procs := w.procs[p := Proc(e, Submitted)])
  {
    assert [Submit(p, e)][1..] == [];
  }

  lemma WaitAndSubmit(w: World, seconds: nat, p: nat, e: Envelope)
    requires p !in w.procs
    ensures Run(w, [Wait(seconds), Submit(p, e)]) ==
            w.(clock := w.clock + seconds, procs := w.procs[p := Proc(e, Submitted)])
  {
    assert [Wait(seconds), Submit(p, e)][1..] == [Submit(p, e)];
    SubmitAlone(w.(clock := w.clock + seconds), p, e);
  }

  lemma {:induction false} RunConcat(w: World, a: seq<Action>, b: seq<Action>)
    ensures Run(w, a + b) == Run(Run(w, a), b)
    decreases |a|
  {
    hide Next;
    if a == [] {
      assert a + b == b;
    } else {
      assert (a + b)[1..] == a[1..] + b;
      RunConcat(Next(w, a[0]), a[1..], b);
    }
  }
}
