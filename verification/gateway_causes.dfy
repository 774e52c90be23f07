/** Why the gateway does what it does: over every run only a project manager's command mints a task, each
    event goes to the task it names or its reference is mapped to, and the ledger tells where each
    event ended (scripts/event-gateway.rb). */
module GatewayCauses {
  import opened Text
  import opened Gateway
  import opened GatewayRuns
  import opened GatewayLiveness

  // ---- identity ----

  /** The event names a task that is there, or has a reference mapped to one that is. */
  predicate Leads(w: World, e: Envelope, task: string) {
    && task in w.dirs
    && if e.task.Some? then e.named && e.task.value == task
       else Strip(e.ref) != "" && Strip(e.ref) in w.mapping && w.mapping[Strip(e.ref)] == task
  }

  /** Exactly how an event finds its task. */
  lemma IdentityExactly(w: World, e: Envelope, pm: bool, task: string)
    ensures ResolveIdentity(w, e, pm) == Resolved(task) <==> Leads(w, e, task)
    ensures ResolveIdentity(w, e, pm) == Mint <==>
              pm && e.task.None? && Strip(e.ref) != "" && forall t :: !Leads(w, e, t)
  {
    hide Strip;
    if e.task.None? && Strip(e.ref) != "" && Strip(e.ref) in w.mapping {
      assert w.mapping[Strip(e.ref)] in w.dirs ==> Leads(w, e, w.mapping[Strip(e.ref)]);
    }
  }

  // ---- who mints ----

  /** What the process's command must have been for it to be where it is. */
  function CommandOf(pc: Pc): Option<bool> {
    match pc
    case Commanded(pm) => Some(pm)
    case Checking(known) => if known.None? then Some(true) else None
    case Minting => Some(true)
    case Minted(_) => Some(true)
    case _ => None
  }

  /** At some action of the run the process, just reserved, learned that its command is of this kind. */
  ghost predicate WasCommanded(w: World, acts: seq<Action>, p: nat, pm: bool) {
    exists i :: 0 <= i < |acts| && CommandsAt(Run(w, acts[..i]), acts[i], p, pm)
  }

  predicate CommandsAt(w: World, a: Action, p: nat, pm: bool) {
    && a.Advance? && a.p == p && a.choice.command == Some(pm)
    && p in w.procs && w.procs[p].pc.Reserved?
  }

  lemma WasCommandedStays(w: World, acts: seq<Action>, a: Action, p: nat, pm: bool)
    ensures WasCommanded(w, acts, p, pm) || CommandsAt(Run(w, acts), a, p, pm) ==> WasCommanded(w, acts + [a], p, pm)
  {
    hide Run, CommandsAt;
    var more := acts + [a];
    assert more[..|acts|] == acts && more[|acts|] == a;
    if i :| 0 <= i < |acts| && CommandsAt(Run(w, acts[..i]), acts[i], p, pm) {
      assert more[..i] == acts[..i] && more[i] == acts[i];
    }
  }

  /** A process is where it is because it was, or because its command just said so. */
  lemma CommandStep(w: World, a: Action, p: nat)
    requires p in Next(w, a).procs && CommandOf(Next(w, a).procs[p].pc).Some?
    ensures var pm := CommandOf(Next(w, a).procs[p].pc).value;
            || (p in w.procs && CommandOf(w.procs[p].pc) == Some(pm))
            || CommandsAt(w, a, p, pm)
  {
    hide Step, CommandOf;
    NoCommandYet();
    if a.Advance? && a.p in w.procs {
      OnlyOneMoves(w, a.p, a.choice);
      if a.p == p {
        OwnCommandStep(w, p, a.choice);
      }
    }
  }

  lemma NoCommandYet()
    ensures CommandOf(Submitted).None? && CommandOf(Stopped).None?
  {
  }

  /** The process arrives where it goes. */
  lemma Arrives(w: World, p: nat, pc: Pc)
    requires p in w.procs
    ensures p in Go(w, p, pc).procs && Go(w, p, pc).procs[p] == w.procs[p].(pc := pc)
    ensures forall o, task :: Note(w, p, o, task, pc).procs == Go(w, p, pc).procs
    ensures forall o, task :: Note(w, p, o, task, pc).mapping == w.mapping && Note(w, p, o, task, pc).dirs == w.dirs
    ensures Go(w, p, pc).mapping == w.mapping && Go(w, p, pc).dirs == w.dirs
  {
    hide AfterFinalize;
  }

  lemma OwnCommandStep(w: World, p: nat, c: Choice)
    requires p in w.procs && p in Step(w, p, c).procs && CommandOf(Step(w, p, c).procs[p].pc).Some?
    ensures var pm := CommandOf(Step(w, p, c).procs[p].pc).value;
            CommandOf(w.procs[p].pc) == Some(pm) || CommandsAt(w, Advance(p, c), p, pm)
  {
    hide AfterReserve, MayReserve, AfterMint, MirrorShowsRun, RowOf, ResolveIdentity, Go, Note;
    forall v: World, pc: Pc | p in v.procs ensures p in Go(v, p, pc).procs && Go(v, p, pc).procs[p].pc == pc {
      Arrives(v, p, pc);
    }
    forall pc: Pc, o, task ensures p in Note(w, p, o, task, pc).procs && Note(w, p, o, task, pc).procs[p].pc == pc {
      Arrives(w, p, pc);
    }
    match w.procs[p].pc
    case Commanded(pm) => IdentityExactly(w, w.procs[p].envelope, pm, "");
    case Minting =>
      var ref := Strip(w.procs[p].envelope.ref);
      var mapping := AfterMint(w.mapping, w.dirs, ref);
      MintedIsMapped(w.mapping, w.dirs, ref);
      Arrives(w.(mapping := mapping), p, Minted(mapping[ref]));
    case _ =>
  }

  lemma LastAction(w: World, acts: seq<Action>)
    requires acts != []
    ensures Run(w, acts) == Next(Run(w, acts[..|acts| - 1]), acts[|acts| - 1])
  {
    hide Next;
    var front, last := acts[..|acts| - 1], acts[|acts| - 1];
    assert acts == front + [last];
    RunConcat(w, front, [last]);
    var v := Run(w, front);
    assert [last][1..] == [] && Run(Next(v, last), []) == Next(v, last);
  }

  /** Over every run, a process that is about to mint a task, or has, is one whose command was a project
      manager's. */
  lemma {:induction false} OnlyPmMints(w: World, acts: seq<Action>, p: nat)
    requires Fresh(w) && p in Run(w, acts).procs && CommandOf(Run(w, acts).procs[p].pc).Some?
    ensures WasCommanded(w, acts, p, CommandOf(Run(w, acts).procs[p].pc).value)
    decreases |acts|
  {
    hide Next, CommandsAt, CommandOf, WasCommanded;
    if acts == [] {
      assert false;
    } else {
      var front, last := acts[..|acts| - 1], acts[|acts| - 1];
      assert acts == front + [last];
      LastAction(w, acts);
      var pm := CommandOf(Run(w, acts).procs[p].pc).value;
      CommandStep(Run(w, front), last, p);
      if p in Run(w, front).procs && CommandOf(Run(w, front).procs[p].pc) == Some(pm) {
        OnlyPmMints(w, front, p);
      }
      WasCommandedStays(w, front, last, p, pm);
    }
  }

  // ---- which task ----

  function TaskAt(pc: Pc): Option<string> {
    match pc
    case Identified(task) => Some(task)
    case Checking(known) => known
    case Minted(task) => Some(task)
    case Ready(task) => Some(task)
    case Ran(task, _) => Some(task)
    case Mirroring(task) => Some(task)
    case _ => None
  }

  predicate ForMint(pc: Pc) { (pc.Checking? && pc.known.None?) || pc.Minting? }

  /** The event's own task, or the one its reference is mapped to. */
  predicate OwnTask(w: World, e: Envelope, task: string) {
    if e.task.Some? then e.named && e.task.value == task && task in w.dirs
    else Strip(e.ref) != "" && Strip(e.ref) in w.mapping && w.mapping[Strip(e.ref)] == task
  }

  predicate WellPlaced(w: World, x: Proc) {
    && (TaskAt(x.pc).Some? ==> OwnTask(w, x.envelope, TaskAt(x.pc).value))
    && ((x.pc.Identified? || x.pc.Checking?) && TaskAt(x.pc).Some? ==> TaskAt(x.pc).value in w.dirs)
    && (ForMint(x.pc) ==> x.envelope.task.None? && Strip(x.envelope.ref) != "")
  }

  ghost predicate AllPlaced(w: World) { forall p :: p in w.procs ==> WellPlaced(w, w.procs[p]) }

  /** Directories and the mapping only grow. */
  ghost predicate Grows(w: World, v: World) {
    && w.dirs <= v.dirs
    && forall r :: r in w.mapping ==> r in v.mapping && v.mapping[r] == w.mapping[r]
  }

  lemma GrowthKeepsPlace(w: World, v: World, x: Proc)
    requires Grows(w, v) && WellPlaced(w, x)
    ensures WellPlaced(v, x)
  {
    hide Strip, TaskAt, ForMint;
  }

  lemma StepGrows(w: World, p: nat, c: Choice)
    requires p in w.procs
    ensures Grows(w, Step(w, p, c))
  {
    hide AfterReserve, AfterFinalize, MayReserve, ResolveIdentity, MirrorShowsRun, RowOf, Strip, Highest, MintedId;
  }

  lemma StepPlaces(w: World, p: nat, c: Choice)
    requires p in w.procs && WellPlaced(w, w.procs[p])
    ensures p in Step(w, p, c).procs && WellPlaced(Step(w, p, c), Step(w, p, c).procs[p])
  {
    hide Step, WellPlaced;
    match w.procs[p].pc
    case Commanded(_) => CommandedPlaces(w, p, c);
    case Identified(_) => IdentifiedPlaces(w, p, c);
    case Checking(_) => IdentifiedPlaces(w, p, c);
    case Minting => MintingPlaces(w, p, c);
    case Minted(_) => LatePlaces(w, p, c);
    case Ready(_) => LatePlaces(w, p, c);
    case Ran(_, _) => LatePlaces(w, p, c);
    case _ => FirstPlaces(w, p, c);
  }

  lemma FirstPlaces(w: World, p: nat, c: Choice)
    requires p in w.procs && WellPlaced(w, w.procs[p])
    requires w.procs[p].pc.Submitted? || w.procs[p].pc.Reserved? || w.procs[p].pc.Mirroring? || w.procs[p].pc.Stopped?
    ensures p in Step(w, p, c).procs && WellPlaced(Step(w, p, c), Step(w, p, c).procs[p])
  {
    hide AfterReserve, AfterFinalize, AfterMint, MayReserve, MirrorShowsRun, RowOf, Strip, ResolveIdentity, MirrorOf;
  }

  lemma CommandedPlaces(w: World, p: nat, c: Choice)
    requires p in w.procs && WellPlaced(w, w.procs[p])
    requires w.procs[p].pc.Commanded?
    ensures p in Step(w, p, c).procs && WellPlaced(Step(w, p, c), Step(w, p, c).procs[p])
  {
    hide AfterReserve, AfterFinalize, AfterMint, MayReserve, MirrorShowsRun, RowOf, Strip, ResolveIdentity, MirrorOf;
    var identity := ResolveIdentity(w, w.procs[p].envelope, w.procs[p].pc.pm);
    IdentityExactly(w, w.procs[p].envelope, w.procs[p].pc.pm, if identity.Resolved? then identity.task else "");
  }

  lemma IdentifiedPlaces(w: World, p: nat, c: Choice)
    requires p in w.procs && WellPlaced(w, w.procs[p])
    requires w.procs[p].pc.Identified? || w.procs[p].pc.Checking?
    ensures p in Step(w, p, c).procs && WellPlaced(Step(w, p, c), Step(w, p, c).procs[p])
  {
    hide AfterReserve, AfterFinalize, AfterMint, MayReserve, MirrorShowsRun, RowOf, Strip, ResolveIdentity, MirrorOf;
  }

  lemma MintingPlaces(w: World, p: nat, c: Choice)
    requires p in w.procs && WellPlaced(w, w.procs[p])
    requires w.procs[p].pc.Minting?
    ensures p in Step(w, p, c).procs && WellPlaced(Step(w, p, c), Step(w, p, c).procs[p])
  {
    hide AfterReserve, AfterFinalize, AfterMint, MayReserve, MirrorShowsRun, RowOf, Strip, ResolveIdentity, MirrorOf;
    MintedIsMapped(w.mapping, w.dirs, Strip(w.procs[p].envelope.ref));
  }

  lemma LatePlaces(w: World, p: nat, c: Choice)
    requires p in w.procs && WellPlaced(w, w.procs[p])
    requires w.procs[p].pc.Minted? || w.procs[p].pc.Ready? || w.procs[p].pc.Ran?
    ensures p in Step(w, p, c).procs && WellPlaced(Step(w, p, c), Step(w, p, c).procs[p])
  {
    hide AfterReserve, AfterFinalize, AfterMint, MayReserve, MirrorShowsRun, RowOf, Strip, ResolveIdentity, MirrorOf;
  }

  lemma MintedIsMapped(mapping: map<string, string>, dirs: set<string>, ref: string)
    ensures ref in AfterMint(mapping, dirs, ref)
  {
    hide Highest, MintedId;
  }

  lemma NextPlaces(w: World, a: Action)
    requires AllPlaced(w)
    ensures AllPlaced(Next(w, a)) && Grows(w, Next(w, a))
  {
    hide Step, WellPlaced;
    var v := Next(w, a);
    if a.Advance? && a.p in w.procs {
      StepGrows(w, a.p, a.choice);
      StepPlaces(w, a.p, a.choice);
      OnlyOneMoves(w, a.p, a.choice);
    } else {
      OthersPlaced(w, a);
    }
    forall q | q in v.procs && q in w.procs && v.procs[q] == w.procs[q] ensures WellPlaced(v, v.procs[q]) {
      GrowthKeepsPlace(w, v, w.procs[q]);
    }
  }

  /** Every other action places nobody new with a task. */
  lemma OthersPlaced(w: World, a: Action)
    requires !(a.Advance? && a.p in w.procs)
    ensures Grows(w, Next(w, a))
    ensures forall q :: q in Next(w, a).procs ==>
              (q in w.procs && Next(w, a).procs[q] == w.procs[q]) || WellPlaced(Next(w, a), Next(w, a).procs[q])
  {
  }

  /** Over every run each process works for its event's own task: the one it names, which has a directory, or
      the one its reference is mapped to; a task taken without minting has a directory. */
  lemma {:induction false} EventsGoToTheirTasks(w: World, acts: seq<Action>)
    requires AllPlaced(w)
    ensures AllPlaced(Run(w, acts)) && Grows(w, Run(w, acts))
    decreases |acts|
  {
    hide Next, AllPlaced;
    if acts != [] {
      NextPlaces(w, acts[0]);
      EventsGoToTheirTasks(Next(w, acts[0]), acts[1..]);
    }
  }

  // ---- where an event ended ----

  /** What the ledger says of an event that was handled, outcome by outcome. */
  predicate Ended(w: World, e: Envelope, c: Choice, o: RowOutcome) {
    var found := c.command.Some? && !ResolveIdentity(w, e, c.command.value).Reject?;
    || (o == RejectedCommand && c.command.None?)
    || (o == RejectedIdentity && c.command.Some? && !found)
    || (o == RejectedPreflight && found && !c.allowed)
    || (o == Dispatched && found && c.allowed && (c.dryRun || c.ok))
    || (o == DispatchFailed && found && c.allowed && !c.dryRun && !c.ok)
  }

  predicate Says(events: seq<Row>, d: string, o: RowOutcome) {
    RowOf(events, d).Some? && RowOf(events, d).value.outcome == o
  }

  lemma NotedSays(events: seq<Row>, d: string, o: RowOutcome, task: Option<string>)
    requires RowOf(events, d).Some?
    ensures Says(AfterFinalize(events, d, o, task), d, o)
  {
    hide RowOf, AfterFinalize;
    FinalizedRows(events, d, o, task, d);
  }

  lemma {:induction false} NoMoreNotes(w: World, p: nat, c: Choice, n: nat)
    requires p in w.procs && (w.procs[p].pc.Stopped? || w.procs[p].pc.Mirroring?)
    ensures Advanced(w, p, c, n).events == w.events
    decreases n
  {
    hide RowOf, MirrorOf;
    if n > 0 {
      NoMoreNotes(Next(w, Advance(p, c)), p, c, n - 1);
    }
  }

  lemma ReadyNotes(w: World, p: nat, c: Choice, n: nat)
    requires p in w.procs && w.procs[p].pc.Ready? && n >= 2 && RowOf(w.events, w.procs[p].envelope.delivery).Some?
    ensures Says(Advanced(w, p, c, n).events, w.procs[p].envelope.delivery,
                 if c.dryRun || c.ok then Dispatched else DispatchFailed)
  {
    hide RowOf, AfterFinalize, Says, Advanced;
    var d, a, task := w.procs[p].envelope.delivery, Advance(p, c), w.procs[p].pc.task;
    var v1 := Next(w, a);
    var v2 := Next(v1, a);
    TwoMore(w, p, c, n);
    forall o { NotedSays(w.events, d, o, Some(task)); }
    if c.dryRun {
      NoMoreNotes(v1, p, c, n - 1);
    } else {
      NoMoreNotes(v2, p, c, n - 2);
    }
  }

  lemma TwoMore(w: World, p: nat, c: Choice, n: nat)
    requires n >= 2
    ensures var a := Advance(p, c); var v := Next(w, a);
            Advanced(w, p, c, n) == Advanced(v, p, c, n - 1) == Advanced(Next(v, a), p, c, n - 2)
  {
    hide Next;
  }

  lemma CheckingNotes(w: World, p: nat, c: Choice, n: nat)
    requires p in w.procs && w.procs[p].pc.Checking? && n >= 5 && RowOf(w.events, w.procs[p].envelope.delivery).Some?
    ensures Says(Advanced(w, p, c, n).events, w.procs[p].envelope.delivery,
                 Outcome(c))
  {
    hide RowOf, AfterFinalize, Says, Advanced, AfterMint;
    var d, a := w.procs[p].envelope.delivery, Advance(p, c);
    var v1 := Next(w, a);
    var v2 := Next(v1, a);
    var v3 := Next(v2, a);
    ThreeMore(w, p, c, n);
    forall o, task { NotedSays(w.events, d, o, task); }
    if !c.allowed {
      NoMoreNotes(v1, p, c, n - 1);
    } else if v1.procs[p].pc.Ready? {
      ReadyNotes(v1, p, c, n - 1);
    } else {
      assert v1.procs[p].pc.Minting? && v2.procs[p].pc.Minted? && v3.procs[p].pc.Ready?;
      SaysIsThere(v3.events, d, InProgress);
      ReadyNotes(v3, p, c, n - 3);
    }
  }

  lemma SaysIsThere(events: seq<Row>, d: string, o: RowOutcome)
    ensures Says(events, d, o) ==> RowOf(events, d).Some?
  {
  }

  /** A delivery that gets its reservation, and whose run no mirror shows, ends with exactly the outcome its
      answers lead to. */
  lemma OutcomeTells(w: World, p: nat, c: Choice, o: RowOutcome)
    requires p in w.procs && w.procs[p].pc.Submitted? && !Shown(w.mirrors, w.procs[p].envelope.delivery)
    requires MayReserve(w.events, w.procs[p].envelope.delivery, w.clock)
    ensures Says(Advanced(w, p, c, 8).events, w.procs[p].envelope.delivery, o) <==> Ended(w, w.procs[p].envelope, c, o)
  {
    hide RowOf, AfterReserve, AfterFinalize, MayReserve, Advanced, Strip, Says, ResolveIdentity, Shown;
    var e := w.procs[p].envelope;
    TwoMore(w, p, c, 8);
    var v := TwoOn(w, p, c);
    var end := Advanced(w, p, c, 8).events;
    if c.command.None? {
      SaysOne(end, e.delivery, RejectedCommand);
      NoMoreNotes(v, p, c, 6);
    } else {
      CommandedNotes(v, p, c);
      SameIdentity(w, v, e);
      var identity := ResolveIdentity(w, e, c.command.value);
      SaysOne(end, e.delivery, if identity.Reject? then RejectedIdentity else Outcome(c));
    }
  }

  /** What an admitted event comes to. */
  function Outcome(c: Choice): RowOutcome {
    if !c.allowed then RejectedPreflight else if c.dryRun || c.ok then Dispatched else DispatchFailed
  }

  /** The reservation and the command. */
  lemma TwoOn(w: World, p: nat, c: Choice) returns (v: World)
    requires p in w.procs && w.procs[p].pc.Submitted? && MayReserve(w.events, w.procs[p].envelope.delivery, w.clock)
    ensures v == Next(Next(w, Advance(p, c)), Advance(p, c))
    ensures p in v.procs && v.procs[p].envelope == w.procs[p].envelope
    ensures v.mapping == w.mapping && v.dirs == w.dirs && v.mirrors == w.mirrors
    ensures v.procs[p].pc == if c.command.Some? then Commanded(c.command.value) else Stopped
    ensures Says(v.events, w.procs[p].envelope.delivery, if c.command.Some? then InProgress else RejectedCommand)
  {
    hide RowOf, AfterReserve, AfterFinalize, MayReserve, Says;
    var d, a := w.procs[p].envelope.delivery, Advance(p, c);
    var u := Next(w, a);
    v := Next(u, a);
    ReservedIsThere(w.events, d, w.clock);
    NotedSays(u.events, d, if c.command.Some? then InProgress else RejectedCommand, None);
  }

  lemma CommandedNotes(w: World, p: nat, c: Choice)
    requires p in w.procs && w.procs[p].pc.Commanded? && !Shown(w.mirrors, w.procs[p].envelope.delivery)
    requires Says(w.events, w.procs[p].envelope.delivery, InProgress)
    ensures Says(Advanced(w, p, c, 6).events, w.procs[p].envelope.delivery,
                 if ResolveIdentity(w, w.procs[p].envelope, w.procs[p].pc.pm).Reject? then RejectedIdentity
                 else Outcome(c))
  {
    hide RowOf, AfterFinalize, Advanced, Says, ResolveIdentity, MirrorShowsRun;
    var d, a := w.procs[p].envelope.delivery, Advance(p, c);
    var v := Next(w, a);
    TwoMore(w, p, c, 6);
    SaysIsThere(w.events, d, InProgress);
    match ResolveIdentity(w, w.procs[p].envelope, w.procs[p].pc.pm)
    case Reject =>
      NotedSays(w.events, d, RejectedIdentity, None);
      NoMoreNotes(v, p, c, 5);
    case Mint =>
      NotedSays(w.events, d, InProgress, None);
      SaysIsThere(v.events, d, InProgress);
      CheckingNotes(v, p, c, 5);
    case Resolved(task) =>
      NotedSays(w.events, d, InProgress, Some(task));
      SaysIsThere(v.events, d, InProgress);
      IdentifiedNotes(v, p, c, task);
  }

  lemma ReservedIsThere(events: seq<Row>, d: string, now: int)
    requires MayReserve(events, d, now)
    ensures RowOf(AfterReserve(events, d, now), d).Some?
  {
    hide AfterReserve, RowOf, MayReserve;
    ReservedRows(events, d, now, d);
  }

  lemma SaysOne(events: seq<Row>, d: string, o: RowOutcome)
    ensures Says(events, d, o) ==> forall o' :: Says(events, d, o') <==> o' == o
  {
  }

  lemma IdentifiedNotes(w: World, p: nat, c: Choice, task: string)
    requires p in w.procs && w.procs[p].pc == Identified(task) && RowOf(w.events, w.procs[p].envelope.delivery).Some?
    requires !MirrorShowsRun(w.mirrors, task, w.procs[p].envelope.delivery)
    ensures Says(Advanced(w, p, c, 5).events, w.procs[p].envelope.delivery,
                 Outcome(c))
  {
    hide RowOf, AfterFinalize, Says, Advanced, MirrorShowsRun, MirrorOf;
    var d, a := w.procs[p].envelope.delivery, Advance(p, c);
    var v1 := Next(w, a);
    var v2 := Next(v1, a);
    TwoMore(w, p, c, 5);
    assert v1.procs[p].pc == Checking(Some(task)) && v1.events == w.events;
    forall o, task { NotedSays(w.events, d, o, task); }
    if !c.allowed {
      NoMoreNotes(v2, p, c, 3);
    } else {
      ReadyNotes(v2, p, c, 3);
    }
  }
}
