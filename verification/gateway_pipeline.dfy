/** run_pipeline as one process runs it, and its agreement with the protocol's steps
    (run_pipeline of scripts/event-gateway.rb). */
module GatewayPipeline {
  import opened Text
  import opened Gateway
  import opened GatewayRuns

  /** The world of a process on its own, at a place in the pipeline. */
  function Alone(events: seq<Row>, mapping: map<string, string>, mirrors: map<string, Mirror>, dirs: set<string>,
                 clock: int,
                 dispatches: seq<string>, e: Envelope, pc: Pc): World {
    World(map[0 := Proc(e, pc)], events, mapping, mirrors, dirs, clock, dispatches)
  }

  /** Steps the process until it stops. */
  ghost function Driven(w: World, c: Choice): World
    requires 0 in w.procs
    decreases Distance(w.procs[0].pc)
  {
    if w.procs[0].pc.Stopped? then w
    else
      StepAdvances(w, c);
      Driven(Step(w, 0, c), c)
  }

  function Distance(pc: Pc): nat {
    match pc
    case Submitted => 10
    case Reserved => 9
    case Commanded(_) => 8
    case Identified(_) => 7
    case Checking(_) => 6
    case Minting => 5
    case Minted(_) => 4
    case Ready(_) => 3
    case Ran(_, _) => 2
    case Mirroring(_) => 1
    case Stopped => 0
  }

  lemma StepAdvances(w: World, c: Choice)
    requires 0 in w.procs && !w.procs[0].pc.Stopped?
    ensures 0 in Step(w, 0, c).procs && Distance(Step(w, 0, c).procs[0].pc) < Distance(w.procs[0].pc)
  {
    hide AfterReserve, AfterFinalize, MayReserve, ResolveIdentity, MirrorShowsRun, RowOf, Strip, Highest, MintedId, Go;
    forall v: World, pc: Pc | 0 in v.procs ensures 0 in Go(v, 0, pc).procs && Go(v, 0, pc).procs[0].pc == pc {
      GoArrives(v, pc);
    }
  }

  lemma GoArrives(w: World, pc: Pc)
    requires 0 in w.procs
    ensures 0 in Go(w, 0, pc).procs && Go(w, 0, pc).procs[0].pc == pc
  {
  }

  class Pipeline {
    const store: GatewayStore
    const dirs: set<string>
    const clock: int
    var dispatches: seq<string>

    constructor (store: GatewayStore, dirs: set<string>, clock: int)
      ensures this.store == store && this.dirs == dirs && this.clock == clock && dispatches == []
    {
      this.store, this.dirs, this.clock, dispatches := store, dirs, clock, [];
    }

    ghost function At(e: Envelope, pc: Pc): World
      reads this, store
    {
      Alone(store.events, store.mapping, store.mirrors, dirs, clock, dispatches, e, pc)
    }

    /** The whole pipeline, left exactly where the protocol's steps leave it. */
    method Run(e: Envelope, c: Choice)
      modifies this`dispatches, store
      ensures At(e, Stopped) == Driven(old(At(e, Submitted)), c)
    {
      hide Step, Driven;
      StartStep(At(e, Submitted), c);
      var won := store.Reserve(e.delivery, clock);
      if !won {
        StoppedIsDriven(At(e, Stopped), c);
        return;
      }
      Handle(e, c);
    }

    method Handle(e: Envelope, c: Choice)
      modifies this`dispatches, store
      ensures At(e, Stopped) == Driven(old(At(e, Reserved)), c)
    {
      hide Step, Driven, AfterFinalize;
      CommandStep(At(e, Reserved), c);
      if c.command.None? {
        store.Finalize(e.delivery, RejectedCommand, None);
        StoppedIsDriven(At(e, Stopped), c);
        return;
      }
      store.Finalize(e.delivery, InProgress, None);
      Resolve(e, c, c.command.value);
    }

    method Resolve(e: Envelope, c: Choice, pm: bool)
      modifies this`dispatches, store
      ensures At(e, Stopped) == Driven(old(At(e, Commanded(pm))), c)
    {
      hide Step, Driven, AfterFinalize, ResolveIdentity;
      IdentityStep(At(e, Commanded(pm)), c);
      var identity := ResolveIdentity(Alone(store.events, store.mapping, store.mirrors, dirs, clock, dispatches, e,
                                            Commanded(pm)), e, pm);
      match identity
      case Reject =>
        store.Finalize(e.delivery, RejectedIdentity, None);
        StoppedIsDriven(At(e, Stopped), c);
      case Mint =>
        store.Finalize(e.delivery, InProgress, None);
        PreCheck(e, c, None);
      case Resolved(task) =>
        store.Finalize(e.delivery, InProgress, Some(task));
        SecondCheck(e, c, task);
    }

    /** The second idempotency check, against the task's own mirror. */
    method SecondCheck(e: Envelope, c: Choice, task: string)
      modifies this`dispatches, store
      ensures At(e, Stopped) == Driven(old(At(e, Identified(task))), c)
    {
      hide Step, Driven, AfterFinalize, MirrorShowsRun;
      MirrorStep(At(e, Identified(task)), c);
      if MirrorShowsRun(store.mirrors, task, e.delivery) {
        store.Finalize(e.delivery, DuplicateRow, Some(task));
        StoppedIsDriven(At(e, Stopped), c);
        return;
      }
      PreCheck(e, c, Some(task));
    }

    method PreCheck(e: Envelope, c: Choice, known: Option<string>)
      modifies this`dispatches, store
      ensures At(e, Stopped) == Driven(old(At(e, Checking(known))), c)
    {
      hide Step, Driven, AfterFinalize;
      CheckStep(At(e, Checking(known)), c);
      if !c.allowed {
        store.Finalize(e.delivery, RejectedPreflight, known);
        if known.Some? {
          Copy(e, c, known.value);
        } else {
          StoppedIsDriven(At(e, Stopped), c);
        }
        return;
      }
      if known.Some? {
        Execute(e, c, known.value);
        return;
      }
      MintStep(At(e, Minting), c);
      var task := store.MintAndMap(Strip(e.ref), dirs);
      MintedStep(At(e, Minted(task)), c);
      store.Finalize(e.delivery, InProgress, Some(task));
      Execute(e, c, task);
    }

    method Execute(e: Envelope, c: Choice, task: string)
      modifies this`dispatches, store
      ensures At(e, Stopped) == Driven(old(At(e, Ready(task))), c)
    {
      hide Step, Driven, AfterFinalize;
      ReadyStep(At(e, Ready(task)), c);
      if c.dryRun {
        store.Finalize(e.delivery, Dispatched, Some(task));
        Copy(e, c, task);
        return;
      }
      dispatches := dispatches + [e.delivery];
      RanStep(At(e, Ran(task, c.ok)), c);
      store.Finalize(e.delivery, if c.ok then Dispatched else DispatchFailed, Some(task));
      Copy(e, c, task);
    }

    /** Copies the row as it is now into the task's mirror. */
    method Copy(e: Envelope, c: Choice, task: string)
      modifies store`mirrors
      ensures At(e, Stopped) == Driven(old(At(e, Mirroring(task))), c)
    {
      hide Step, Driven;
      CopyStep(At(e, Mirroring(task)), c);
      var i := store.FindRow(e.delivery);
      if i < |store.events| {
        store.MirrorToTask(task, e.delivery, store.events[i].outcome, dirs);
      }
      StoppedIsDriven(At(e, Stopped), c);
    }
  }

  // ---- what one step of a process on its own does ----

  lemma StoppedIsDriven(w: World, c: Choice)
    requires 0 in w.procs && w.procs[0].pc.Stopped?
    ensures Driven(w, c) == w
  {
  }

  predicate Single(w: World) { 0 in w.procs && w.procs == map[0 := w.procs[0]] }

  /** The single process moved on. */
  function Put(w: World, pc: Pc): World
    requires 0 in w.procs
  {
    w.(procs := map[0 := Proc(w.procs[0].envelope, pc)])
  }

  function Noted(w: World, o: RowOutcome, task: Option<string>, pc: Pc): World
    requires 0 in w.procs
  {
    Put(w.(events := AfterFinalize(w.events, w.procs[0].envelope.delivery, o, task)), pc)
  }

  lemma GoIsPut(w: World, pc: Pc)
    requires Single(w)
    ensures Go(w, 0, pc) == Put(w, pc)
  {
    var x := Proc(w.procs[0].envelope, pc);
    assert w.procs[0].(pc := pc) == x;
    assert map[0 := w.procs[0]][0 := x] == map[0 := x];
  }

  /** Moving the single process is what the protocol's step does to it. */
  lemma MovesArePuts()
    ensures forall w: World, pc: Pc :: Single(w) ==> Go(w, 0, pc) == Put(w, pc)
  {
    forall w: World, pc: Pc | Single(w) ensures Go(w, 0, pc) == Put(w, pc) {
      GoIsPut(w, pc);
    }
  }

  lemma StartStep(w: World, c: Choice)
    requires Single(w) && w.procs[0].pc.Submitted?
    ensures var d := w.procs[0].envelope.delivery;
            Driven(w, c) == Driven(Put(w.(events := AfterReserve(w.events, d, w.clock)),
                                       if MayReserve(w.events, d, w.clock) then Reserved else Stopped), c)
  {
    hide AfterFinalize, ResolveIdentity, AfterMint, MirrorShowsRun, Strip;
    MovesArePuts();
    StepAdvances(w, c);
  }

  lemma CommandStep(w: World, c: Choice)
    requires Single(w) && w.procs[0].pc.Reserved?
    ensures Driven(w, c) == Driven(if c.command.None? then Noted(w, RejectedCommand, None, Stopped)
                                   else Noted(w, InProgress, None, Commanded(c.command.value)), c)
  {
    hide AfterFinalize, AfterReserve, MayReserve, ResolveIdentity, AfterMint, MirrorShowsRun, RowOf, Strip;
    MovesArePuts();
    StepAdvances(w, c);
  }

  lemma IdentityStep(w: World, c: Choice)
    requires Single(w) && w.procs[0].pc.Commanded?
    ensures Driven(w, c) == Driven(match ResolveIdentity(w, w.procs[0].envelope, w.procs[0].pc.pm)
                                   case Resolved(task) => Noted(w, InProgress, Some(task), Identified(task))
                                   case Mint => Noted(w, InProgress, None, Checking(None))
                                   case Reject => Noted(w, RejectedIdentity, None, Stopped), c)
  {
    hide AfterFinalize, AfterReserve, MayReserve, ResolveIdentity, AfterMint, MirrorShowsRun, RowOf, Strip;
    MovesArePuts();
    StepAdvances(w, c);
  }

  lemma MirrorStep(w: World, c: Choice)
    requires Single(w) && w.procs[0].pc.Identified?
    ensures var task := w.procs[0].pc.task;
            Driven(w, c) == Driven(if MirrorShowsRun(w.mirrors, task, w.procs[0].envelope.delivery)
                                   then Noted(w, DuplicateRow, Some(task), Stopped)
                                   else Put(w, Checking(Some(task))), c)
  {
    hide AfterFinalize, AfterReserve, MayReserve, ResolveIdentity, AfterMint, MirrorShowsRun, RowOf, Strip;
    MovesArePuts();
    StepAdvances(w, c);
  }

  lemma CheckStep(w: World, c: Choice)
    requires Single(w) && w.procs[0].pc.Checking?
    ensures var known := w.procs[0].pc.known;
            Driven(w, c) == Driven(if !c.allowed
                                   then Noted(w, RejectedPreflight, known,
                                              if known.Some? then Mirroring(known.value) else Stopped)
                                   else Put(w, if known.Some? then Ready(known.value) else Minting), c)
  {
    hide AfterFinalize, AfterReserve, MayReserve, ResolveIdentity, AfterMint, MirrorShowsRun, RowOf, Strip;
    MovesArePuts();
    StepAdvances(w, c);
  }

  lemma MintStep(w: World, c: Choice)
    requires Single(w) && w.procs[0].pc.Minting?
    ensures var ref := Strip(w.procs[0].envelope.ref);
            var mapping := AfterMint(w.mapping, w.dirs, ref);
            ref in mapping && Driven(w, c) == Driven(Put(w.(mapping := mapping), Minted(mapping[ref])), c)
  {
    hide AfterFinalize, AfterReserve, MayReserve, ResolveIdentity, MirrorShowsRun, RowOf, Strip, Highest, MintedId;
    MovesArePuts();
    StepAdvances(w, c);
  }

  lemma MintedStep(w: World, c: Choice)
    requires Single(w) && w.procs[0].pc.Minted?
    ensures Driven(w, c) == Driven(Noted(w, InProgress, Some(w.procs[0].pc.task), Ready(w.procs[0].pc.task)), c)
  {
    hide AfterFinalize, AfterReserve, MayReserve, ResolveIdentity, AfterMint, MirrorShowsRun, RowOf, Strip;
    MovesArePuts();
    StepAdvances(w, c);
  }

  lemma ReadyStep(w: World, c: Choice)
    requires Single(w) && w.procs[0].pc.Ready?
    ensures var task := w.procs[0].pc.task;
            Driven(w, c) == Driven(if c.dryRun then Noted(w, Dispatched, Some(task), Mirroring(task))
                                   else Put(w.(dispatches := w.dispatches + [w.procs[0].envelope.delivery]),
                                            Ran(task, c.ok)), c)
  {
    hide AfterFinalize, AfterReserve, MayReserve, ResolveIdentity, AfterMint, MirrorShowsRun, RowOf, Strip;
    MovesArePuts();
    StepAdvances(w, c);
  }

  lemma RanStep(w: World, c: Choice)
    requires Single(w) && w.procs[0].pc.Ran?
    ensures var task := w.procs[0].pc.task;
            Driven(w, c) == Driven(Noted(w, if w.procs[0].pc.ok then Dispatched else DispatchFailed, Some(task),
                                         Mirroring(task)), c)
  {
    hide AfterFinalize, AfterReserve, MayReserve, ResolveIdentity, AfterMint, MirrorShowsRun, RowOf, Strip;
    MovesArePuts();
    StepAdvances(w, c);
  }

  lemma CopyStep(w: World, c: Choice)
    requires Single(w) && w.procs[0].pc.Mirroring?
    ensures var task, d := w.procs[0].pc.task, w.procs[0].envelope.delivery;
            var row := RowOf(w.events, d);
            var v := if row.None? || task !in w.dirs then w
                     else w.(mirrors := w.mirrors[task := MirrorOf(w.mirrors, task)[d := row.value.outcome]]);
            Driven(w, c) == Driven(Put(v, Stopped), c)
  {
    hide AfterFinalize, AfterReserve, MayReserve, ResolveIdentity, AfterMint, MirrorShowsRun, RowOf, Strip;
    MovesArePuts();
    StepAdvances(w, c);
  }
}
