/** The other half of at most once: an event whose holder died before dispatching is not stuck. Once the
    window has passed, a new delivery of it reserves again and may dispatch
    (scripts/event-gateway.rb). */
module GatewayLiveness {
  import opened Text
  import opened Gateway
  import opened GatewayRuns

  /** The process works on the delivery: it may still dispatch it, or has and not noted it yet. */
  predicate Holds(procs: map<nat, Proc>, p: nat, d: string) {
    p in procs && procs[p].envelope.delivery == d && HoldsTicket(procs[p].pc)
  }

  predicate Finishes(procs: map<nat, Proc>, p: nat, d: string) {
    p in procs && procs[p].envelope.delivery == d && procs[p].pc.Ran?
  }

  predicate Works(procs: map<nat, Proc>, p: nat, d: string) { Holds(procs, p, d) || Finishes(procs, p, d) }

  predicate Copies(procs: map<nat, Proc>, p: nat, d: string) {
    p in procs && procs[p].envelope.delivery == d && procs[p].pc.Mirroring?
  }

  /** Some task's mirror shows the delivery's run. */
  ghost predicate Shown(mirrors: map<string, Mirror>, d: string) {
    exists t :: MirrorShowsRun(mirrors, t, d)
  }

  predicate InWork(events: seq<Row>, d: string) { RowOf(events, d).Some? && RowOf(events, d).value.outcome.InProgress? }

  predicate Settled(events: seq<Row>, d: string) { RowOf(events, d).Some? && Terminal(RowOf(events, d).value.outcome) }

  predicate Dated(events: seq<Row>, d: string, clock: int) {
    RowOf(events, d).Some? ==>
      RowOf(events, d).value.receivedAt.Instant? && RowOf(events, d).value.receivedAt.at <= clock
  }

  /** Where no live holder was reclaimed: one process at most works on the delivery, its row says so as
      long as one does, and the mirrors know it only when the row is settled. */
  ghost predicate Tidy(w: World, d: string) {
    && (forall p, q :: Works(w.procs, p, d) && Works(w.procs, q, d) ==> p == q)
    && (forall p :: Works(w.procs, p, d) ==> InWork(w.events, d))
    && (forall p :: Holds(w.procs, p, d) ==> Count(w.dispatches, d) == 0)
    && (forall p :: Finishes(w.procs, p, d) ==> Count(w.dispatches, d) >= 1)
    && (Count(w.dispatches, d) >= 1 ==> RowOf(w.events, d).Some?)
    && (Shown(w.mirrors, d) ==> Settled(w.events, d))
    && (forall p :: Copies(w.procs, p, d) ==> Settled(w.events, d))
    && Dated(w.events, d, w.clock)
  }

  lemma FreshIsTidy(w: World, d: string)
    requires Fresh(w) && !Shown(w.mirrors, d)
    ensures Tidy(w, d)
  {
    NothingCounted(d);
  }

  // ---- every step keeps it ----

  /** Nobody takes up the delivery, and its row, its dispatches and its mirrors are as before. */
  ghost predicate NothingNew(w: World, v: World, d: string) {
    && (forall q :: Works(v.procs, q, d) ==> Works(w.procs, q, d))
    && (forall q :: Holds(v.procs, q, d) ==> Holds(w.procs, q, d))
    && (forall q :: Finishes(v.procs, q, d) ==> Finishes(w.procs, q, d))
    && (forall q :: Copies(v.procs, q, d) ==> Copies(w.procs, q, d))
    && (forall t :: MirrorShowsRun(v.mirrors, t, d) ==> MirrorShowsRun(w.mirrors, t, d))
    && RowOf(v.events, d) == RowOf(w.events, d) && Count(v.dispatches, d) == Count(w.dispatches, d)
       && v.clock >= w.clock
  }

  lemma TidyStays(w: World, v: World, d: string)
    requires Tidy(w, d) && NothingNew(w, v, d)
    ensures Tidy(v, d)
  {
    hide RowOf, Count, MirrorShowsRun, Holds, Finishes, Copies, Terminal;
  }

  /** A step of a process with another delivery. */
  lemma OtherStepIsNothing(w: World, p: nat, c: Choice, d: string)
    requires p in w.procs && w.procs[p].envelope.delivery != d
    ensures NothingNew(w, Step(w, p, c), d)
  {
    hide Count, RowOf, MirrorShowsRun, Step, HoldsTicket;
    OtherRows(w, p, c, d);
    OtherParts(w, p, c, d);
  }

  lemma OtherParts(w: World, p: nat, c: Choice, d: string)
    requires p in w.procs && w.procs[p].envelope.delivery != d
    ensures var v := Step(w, p, c);
            && p in v.procs && v.procs == w.procs[p := w.procs[p].(pc := v.procs[p].pc)]
            && v.clock == w.clock && Count(v.dispatches, d) == Count(w.dispatches, d)
            && forall t :: MirrorShowsRun(v.mirrors, t, d) ==> MirrorShowsRun(w.mirrors, t, d)
  {
    hide Count, Step, MirrorShowsRun;
    OnlyOneMoves(w, p, c);
    CountAppend(w.dispatches, w.procs[p].envelope.delivery, d);
    OtherCopies(w, p, c, d);
  }

  lemma OnlyOneMoves(w: World, p: nat, c: Choice)
    requires p in w.procs
    ensures var v := Step(w, p, c);
            && p in v.procs && v.procs == w.procs[p := w.procs[p].(pc := v.procs[p].pc)] && v.clock == w.clock
            && v.dispatches in {w.dispatches, w.dispatches + [w.procs[p].envelope.delivery]}
  {
    hide AfterReserve, AfterFinalize, MayReserve, ResolveIdentity, AfterMint, RowOf, Strip, MirrorShowsRun, MirrorOf;
    if w.procs[p].pc.Stopped? {
      assert w.procs == w.procs[p := w.procs[p]];
    }
  }

  lemma OtherCopies(w: World, p: nat, c: Choice, d: string)
    requires p in w.procs && w.procs[p].envelope.delivery != d
    ensures forall t :: MirrorShowsRun(Step(w, p, c).mirrors, t, d) ==> MirrorShowsRun(w.mirrors, t, d)
  {
    hide AfterReserve, AfterFinalize, MayReserve, ResolveIdentity, AfterMint, RowOf, Strip, MirrorShowsRun, MirrorOf;
    if w.procs[p].pc.Mirroring? {
      var mine := w.procs[p].envelope.delivery;
      if RowOf(w.events, mine).Some? {
        OtherMirror(w.mirrors, w.procs[p].pc.task, mine, RowOf(w.events, mine).value.outcome, d);
      }
    } else {
      assert Step(w, p, c).mirrors == w.mirrors;
    }
  }

  lemma OtherMirror(mirrors: map<string, Mirror>, task: string, mine: string, o: RowOutcome, d: string)
    requires mine != d
    ensures forall t :: MirrorShowsRun(mirrors[task := MirrorOf(mirrors, task)[mine := o]], t, d) ==>
              MirrorShowsRun(mirrors, t, d)
  {
    hide Terminal;
  }

  lemma OtherRows(w: World, p: nat, c: Choice, d: string)
    requires p in w.procs && w.procs[p].envelope.delivery != d
    ensures RowOf(Step(w, p, c).events, d) == RowOf(w.events, d)
  {
    hide AfterReserve, AfterFinalize, MayReserve, ResolveIdentity, AfterMint, RowOf, Strip, MirrorShowsRun;
    var mine := w.procs[p].envelope.delivery;
    if MayReserve(w.events, mine, w.clock) {
      ReservedRows(w.events, mine, w.clock, d);
    }
    forall o, task { FinalizedRows(w.events, mine, o, task, d); }
  }

  lemma MovingIsNothing(w: World, p: nat, pc: Pc, d: string)
    requires p in w.procs && (pc.Stopped? || (w.procs[p].envelope.delivery == d && HoldsTicket(pc)
                                              && Holds(w.procs, p, d)))
    ensures NothingNew(w, Go(w, p, pc), d)
  {
    hide Count, RowOf, MirrorShowsRun;
  }

  /** The process moves on to `pc`. */
  lemma MovedTidy(w: World, v: World, p: nat, pc: Pc, d: string)
    requires Tidy(w, d) && Works(w.procs, p, d) && Fitting(w, v, p, d) && pc == v.procs[p].pc
    ensures Tidy(v, d)
  {
    hide RowOf, Count, MirrorShowsRun, HoldsTicket;
    assert InWork(w.events, d) && !Settled(w.events, d) by { hide Terminal; NotBoth(w.events, d); }
    forall q | q != p ensures !Works(v.procs, q, d) && !Copies(v.procs, q, d) {
      assert !Works(w.procs, q, d) && !Copies(w.procs, q, d);
    }
    forall q ensures Holds(v.procs, q, d) || Finishes(v.procs, q, d) ==> Works(v.procs, q, d) {}
    TicketIsNotRan(pc);
  }

  lemma TicketIsNotRan(pc: Pc)
    ensures HoldsTicket(pc) ==> !pc.Ran? && !pc.Mirroring?
  {
  }

  lemma NotBoth(events: seq<Row>, d: string)
    ensures !(InWork(events, d) && Settled(events, d))
  {
    hide RowOf;
  }

  /** A new reservation of the delivery. */
  lemma ReserveTidy(w: World, p: nat, c: Choice, d: string)
    requires p in w.procs && w.procs[p].envelope.delivery == d && w.procs[p].pc.Submitted? && Tidy(w, d)
    requires MayReserve(w.events, d, w.clock) && !ReclaimsLive(w, Advance(p, c), d)
    ensures Tidy(Step(w, p, c), d)
  {
    hide AfterReserve, RowOf, Count, MirrorShowsRun;
    var v := Step(w, p, c);
    ReservedRows(w.events, d, w.clock, d);
    NobodyElse(w, p, c, d);
    forall q | q != p ensures !Works(v.procs, q, d) && !Copies(v.procs, q, d) {
      assert !Works(w.procs, q, d) && !Copies(w.procs, q, d);
    }
    forall q ensures Holds(v.procs, q, d) || Finishes(v.procs, q, d) ==> Works(v.procs, q, d) {}
    assert Holds(v.procs, p, d) && !Finishes(v.procs, p, d) && !Copies(v.procs, p, d);
  }

  /** Whoever may reserve the delivery finds nobody at work on it, and no trace of its run. */
  lemma NobodyElse(w: World, p: nat, c: Choice, d: string)
    requires p in w.procs && w.procs[p].envelope.delivery == d && w.procs[p].pc.Submitted? && Tidy(w, d)
    requires MayReserve(w.events, d, w.clock) && !ReclaimsLive(w, Advance(p, c), d)
    ensures (forall q :: !Works(w.procs, q, d)) && Count(w.dispatches, d) == 0 && !Settled(w.events, d)
  {
    hide RowOf, Count, MirrorShowsRun;
    forall q ensures !Works(w.procs, q, d) {
      assert Holds(w.procs, q, d) ==> q in Tickets(w.procs, d);
    }
  }

  /** A step of the delivery's own process after its reservation. */
  lemma OwnStepTidy(w: World, p: nat, c: Choice, d: string)
    requires Works(w.procs, p, d) && Tidy(w, d)
    ensures Tidy(Step(w, p, c), d)
  {
    hide Step, Tidy, Holds, Finishes, Works, InWork, Dated, Settled, Count, RowOf;
    OwnRow(w, p, d);
    if Early(w.procs[p].pc) {
      EarlyStep(w, p, c, d);
    } else {
      LateStep(w, p, c, d);
    }
    var v := Step(w, p, c);
    MovedTidy(w, v, p, v.procs[p].pc, d);
  }

  predicate Early(pc: Pc) { pc.Reserved? || pc.Commanded? || pc.Identified? || pc.Checking? }

  /** The process moved, and the row fits the place it moved to. */
  predicate Fitting(w: World, v: World, p: nat, d: string)
    requires p in w.procs
  {
    && p in v.procs && v.procs == w.procs[p := w.procs[p].(pc := v.procs[p].pc)]
    && v.mirrors == w.mirrors && v.clock == w.clock && Dated(v.events, d, v.clock) && RowOf(v.events, d).Some?
    && (HoldsTicket(v.procs[p].pc) ==> InWork(v.events, d) && Count(v.dispatches, d) == 0)
    && (v.procs[p].pc.Ran? ==> InWork(v.events, d) && Count(v.dispatches, d) >= 1)
    && (v.procs[p].pc.Mirroring? ==> Settled(v.events, d))
  }

  lemma EarlyStep(w: World, p: nat, c: Choice, d: string)
    requires p in w.procs && w.procs[p].envelope.delivery == d && InWork(w.events, d) && Dated(w.events, d, w.clock)
    requires Early(w.procs[p].pc) && Count(w.dispatches, d) == 0
    ensures Fitting(w, Step(w, p, c), p, d)
  {
    hide AfterFinalize, MayReserve, ResolveIdentity, AfterMint, RowOf, Strip, Count, MirrorShowsRun;
    forall o, task { FinalizedRows(w.events, d, o, task, d); }
  }

  lemma LateStep(w: World, p: nat, c: Choice, d: string)
    requires p in w.procs && w.procs[p].envelope.delivery == d && InWork(w.events, d) && Dated(w.events, d, w.clock)
    requires (HoldsTicket(w.procs[p].pc) && !Early(w.procs[p].pc)) || w.procs[p].pc.Ran?
    requires HoldsTicket(w.procs[p].pc) ==> Count(w.dispatches, d) == 0
    ensures Fitting(w, Step(w, p, c), p, d)
  {
    hide AfterFinalize, MayReserve, ResolveIdentity, AfterMint, RowOf, Strip, Count, MirrorShowsRun;
    forall o, task { FinalizedRows(w.events, d, o, task, d); }
    CountAppend(w.dispatches, d, d);
  }

  lemma OwnRow(w: World, p: nat, d: string)
    requires Works(w.procs, p, d) && Tidy(w, d)
    ensures p in w.procs && w.procs[p].envelope.delivery == d && InWork(w.events, d) && Dated(w.events, d, w.clock)
    ensures HoldsTicket(w.procs[p].pc) || w.procs[p].pc.Ran?
    ensures HoldsTicket(w.procs[p].pc) ==> Count(w.dispatches, d) == 0
    ensures w.procs[p].pc.Ran? ==> Count(w.dispatches, d) >= 1
  {
    hide RowOf, Count, MirrorShowsRun;
    assert HoldsTicket(w.procs[p].pc) ==> Holds(w.procs, p, d);
    assert w.procs[p].pc.Ran? ==> Finishes(w.procs, p, d);
  }

  lemma CopyTidy(w: World, p: nat, c: Choice, d: string)
    requires Copies(w.procs, p, d) && Tidy(w, d)
    ensures Tidy(Step(w, p, c), d)
  {
    hide RowOf, Count, HoldsTicket, Terminal;
    var v := Step(w, p, c);
    assert Settled(w.events, d) && v.events == w.events && v.dispatches == w.dispatches && v.clock == w.clock;
    assert v.procs == w.procs[p := w.procs[p].(pc := Stopped)];
    TicketIsNotRan(Stopped);
    StoppedHasNoTicket();
    forall q ensures Works(v.procs, q, d) ==> Works(w.procs, q, d) {}
    forall q ensures Holds(v.procs, q, d) ==> Holds(w.procs, q, d) {}
    forall q ensures Finishes(v.procs, q, d) ==> Finishes(w.procs, q, d) {}
  }

  lemma NextTidy(w: World, a: Action, d: string)
    requires Tidy(w, d) && KeepsLedger(a) && !ReclaimsLive(w, a, d)
    ensures Tidy(Next(w, a), d)
  {
    hide Tidy, NothingNew, Count, Step, RowOf, ReclaimsLive, MirrorShowsRun, HoldsTicket, MayReserve;
    match a
    case Advance(p, c) =>
      if p in w.procs {
        AdvanceTidy(w, p, c, d);
      }
    case Crash(p) =>
      if p in w.procs {
        MovingIsNothing(w, p, Stopped, d);
        TidyStays(w, Next(w, a), d);
      }
    case Submit(p, e) =>
      if p !in w.procs {
        SubmittingIsNothing(w, p, e, d);
        TidyStays(w, Next(w, a), d);
      }
    case Wait(_) =>
      WaitingIsNothing(w, Next(w, a), d);
      TidyStays(w, Next(w, a), d);
    case MakeDirectory(_) =>
      WaitingIsNothing(w, Next(w, a), d);
      TidyStays(w, Next(w, a), d);
  }

  lemma AdvanceTidy(w: World, p: nat, c: Choice, d: string)
    requires p in w.procs && Tidy(w, d) && !ReclaimsLive(w, Advance(p, c), d)
    ensures Tidy(Step(w, p, c), d)
  {
    hide Tidy, NothingNew, Count, Step, RowOf, ReclaimsLive, MirrorShowsRun, MayReserve;
    if w.procs[p].envelope.delivery != d {
      OtherStepIsNothing(w, p, c, d);
      TidyStays(w, Step(w, p, c), d);
    } else if w.procs[p].pc.Submitted? && MayReserve(w.events, d, w.clock) {
      ReserveTidy(w, p, c, d);
    } else if Works(w.procs, p, d) {
      OwnStepTidy(w, p, c, d);
    } else if Copies(w.procs, p, d) {
      CopyTidy(w, p, c, d);
    } else {
      TurnedAway(w, p, c);
      MovingIsNothing(w, p, Stopped, d);
      TidyStays(w, Go(w, p, Stopped), d);
    }
  }

  lemma TurnedAway(w: World, p: nat, c: Choice)
    requires p in w.procs
    requires w.procs[p].pc.Stopped? || (w.procs[p].pc.Submitted?
                                        && !MayReserve(w.events, w.procs[p].envelope.delivery, w.clock))
    ensures Step(w, p, c) == Go(w, p, Stopped)
  {
    hide MayReserve;
    assert w.procs[p].pc.Stopped? ==> w.procs[p := w.procs[p].(pc := Stopped)] == w.procs;
  }

  lemma SubmittingIsNothing(w: World, p: nat, e: Envelope, d: string)
    requires p !in w.procs
    ensures NothingNew(w, w.(procs := w.procs[p := Proc(e, Submitted)]), d)
  {
    hide Count, RowOf, MirrorShowsRun;
  }

  lemma WaitingIsNothing(w: World, v: World, d: string)
    requires v.procs == w.procs && v.events == w.events && v.mirrors == w.mirrors && v.dispatches == w.dispatches
    requires v.clock >= w.clock
    ensures NothingNew(w, v, d)
  {
  }

  lemma {:induction false} RunTidy(w: World, acts: seq<Action>, d: string)
    requires Tidy(w, d) && NoLiveReclaim(w, acts, d)
    ensures Tidy(Run(w, acts), d)
    decreases |acts|
  {
    hide Next, Tidy, ReclaimsLive, KeepsLedger;
    if acts != [] {
      NextTidy(w, acts[0], d);
      RunTidy(Next(w, acts[0]), acts[1..], d);
    }
  }

  // ---- an abandoned delivery ----

  /** The row says the delivery is in work, and nobody works on it or ever dispatched it. */
  ghost predicate Abandoned(w: World, d: string) {
    InWork(w.events, d) && Count(w.dispatches, d) == 0 && forall p :: !Works(w.procs, p, d)
  }

  /** That is what a holder that dies before dispatching leaves. */
  lemma CrashAbandons(w: World, q: nat, d: string)
    requires Tidy(w, d) && Holds(w.procs, q, d)
    ensures Abandoned(Next(w, Crash(q)), d)
  {
    hide Count, RowOf, Shown;
    var v := Next(w, Crash(q));
    assert Works(w.procs, q, d);
    forall p ensures !Works(v.procs, p, d) {
      assert p != q ==> !Works(w.procs, p, d);
    }
  }

  predicate Reserves(w: World, a: Action, d: string) {
    && a.Advance? && a.p in w.procs && w.procs[a.p].envelope.delivery == d && w.procs[a.p].pc.Submitted?
    && MayReserve(w.events, d, w.clock)
  }

  ghost predicate NobodyReserves(w: World, acts: seq<Action>, d: string)
    decreases |acts|
  {
    acts != [] ==> !Reserves(w, acts[0], d) && KeepsLedger(acts[0]) && NobodyReserves(Next(w, acts[0]), acts[1..], d)
  }

  lemma AbandonedStays(w: World, a: Action, d: string)
    requires Abandoned(w, d) && !Reserves(w, a, d) && KeepsLedger(a)
    ensures Abandoned(Next(w, a), d)
  {
    hide NothingNew, Count, Step, RowOf, MirrorShowsRun, HoldsTicket, MayReserve, Abandoned;
    match a
    case Advance(p, c) => if p in w.procs { IdleStep(w, p, c, d); }
    case Crash(p) =>
      if p in w.procs {
        MovingIsNothing(w, p, Stopped, d);
        StillAbandoned(w, Next(w, a), d);
      }
    case Submit(p, e) =>
      if p !in w.procs {
        SubmittingIsNothing(w, p, e, d);
        StillAbandoned(w, Next(w, a), d);
      }
    case Wait(_) =>
      WaitingIsNothing(w, Next(w, a), d);
      StillAbandoned(w, Next(w, a), d);
    case MakeDirectory(_) =>
      WaitingIsNothing(w, Next(w, a), d);
      StillAbandoned(w, Next(w, a), d);
  }

  lemma StillAbandoned(w: World, v: World, d: string)
    requires Abandoned(w, d) && NothingNew(w, v, d)
    ensures Abandoned(v, d)
  {
    hide RowOf, Count, MirrorShowsRun, Holds, Finishes, Copies;
  }

  lemma IdleStep(w: World, p: nat, c: Choice, d: string)
    requires p in w.procs && Abandoned(w, d) && !Reserves(w, Advance(p, c), d)
    ensures Abandoned(Step(w, p, c), d)
  {
    hide NothingNew, Count, Step, RowOf, MirrorShowsRun, MayReserve, HoldsTicket;
    if w.procs[p].envelope.delivery != d {
      OtherStepIsNothing(w, p, c, d);
      StillAbandoned(w, Step(w, p, c), d);
    } else {
      assert !Works(w.procs, p, d);
      IdleOwnStep(w, p, c, d);
    }
  }

  lemma IdleOwnStep(w: World, p: nat, c: Choice, d: string)
    requires p in w.procs && w.procs[p].envelope.delivery == d && Abandoned(w, d) && !Reserves(w, Advance(p, c), d)
    ensures Abandoned(Step(w, p, c), d)
  {
    hide Count, RowOf, MayReserve;
    var v := Step(w, p, c);
    assert !Works(w.procs, p, d);
    assert v.events == w.events && v.dispatches == w.dispatches && v.procs == w.procs[p := w.procs[p].(pc := Stopped)];
    forall q ensures !Works(v.procs, q, d) {
      assert !Works(w.procs, q, d);
    }
  }

  /** It stays so, whatever the others do, until somebody reserves it again. */
  lemma {:induction false} AbandonedUntilReserved(w: World, acts: seq<Action>, d: string)
    requires Abandoned(w, d) && NobodyReserves(w, acts, d)
    ensures Abandoned(Run(w, acts), d) && NoLiveReclaim(w, acts, d)
    decreases |acts|
  {
    hide Next, Abandoned, Reserves, KeepsLedger, ReclaimsLive;
    if acts != [] {
      AbandonedStays(w, acts[0], d);
      NotReservedNotReclaimed(w, acts[0], d);
      AbandonedUntilReserved(Next(w, acts[0]), acts[1..], d);
    }
  }

  lemma NotReservedNotReclaimed(w: World, a: Action, d: string)
    requires !Reserves(w, a, d)
    ensures !ReclaimsLive(w, a, d)
  {
    hide RowOf, Tickets, Count, Stale;
  }

  // ---- the retry ----

  function Advances(p: nat, c: Choice, n: nat): seq<Action> {
    if n == 0 then [] else [Advance(p, c)] + Advances(p, c, n - 1)
  }

  /** The world after `n` advances of one process. */
  ghost function Advanced(w: World, p: nat, c: Choice, n: nat): World
    decreases n
  {
    if n == 0 then w else Advanced(Next(w, Advance(p, c)), p, c, n - 1)
  }

  lemma {:induction false} AdvancesRun(w: World, p: nat, c: Choice, n: nat)
    ensures Run(w, Advances(p, c, n)) == Advanced(w, p, c, n)
    decreases n
  {
    hide Next;
    if n > 0 {
      assert Advances(p, c, n)[1..] == Advances(p, c, n - 1);
      AdvancesRun(Next(w, Advance(p, c)), p, c, n - 1);
    }
  }

  /** The answers let the event through: a command, a task, the pre-check, and no dry run. */
  predicate Admitted(w: World, e: Envelope, c: Choice) {
    c.command.Some? && !ResolveIdentity(w, e, c.command.value).Reject? && c.allowed && !c.dryRun
  }

  /** A place from which the process dispatches within `n` advances of its own, or never. */
  lemma {:induction false} NoMoreDispatches(w: World, p: nat, c: Choice, n: nat)
    requires p in w.procs && (w.procs[p].pc.Stopped? || w.procs[p].pc.Mirroring? || w.procs[p].pc.Ran?)
    ensures Advanced(w, p, c, n).dispatches == w.dispatches
    decreases n
  {
    hide RowOf, AfterFinalize, MirrorOf;
    if n > 0 {
      NoMoreDispatches(Next(w, Advance(p, c)), p, c, n - 1);
    }
  }

  lemma ReadyDispatches(w: World, p: nat, c: Choice, n: nat)
    requires p in w.procs && w.procs[p].pc.Ready? && n > 0
    ensures Advanced(w, p, c, n).dispatches == w.dispatches + (if c.dryRun then [] else [w.procs[p].envelope.delivery])
  {
    hide RowOf, AfterFinalize, MirrorOf;
    NoMoreDispatches(Next(w, Advance(p, c)), p, c, n - 1);
  }

  lemma CheckingDispatches(w: World, p: nat, c: Choice, n: nat)
    requires p in w.procs && w.procs[p].pc.Checking? && n > 3
    ensures Advanced(w, p, c, n).dispatches ==
            w.dispatches + (if c.allowed && !c.dryRun then [w.procs[p].envelope.delivery] else [])
  {
    hide RowOf, AfterFinalize, MirrorOf, AfterMint, Advanced;
    var a := Advance(p, c);
    var v1 := Next(w, a);
    var v2 := Next(v1, a);
    var v3 := Next(v2, a);
    ThreeMore(w, p, c, n);
    if !c.allowed {
      NoMoreDispatches(v1, p, c, n - 1);
    } else if v1.procs[p].pc.Ready? {
      ReadyDispatches(v1, p, c, n - 1);
    } else {
      assert v1.procs[p].pc.Minting? && v2.procs[p].pc.Minted? && v3.procs[p].pc.Ready?;
      ReadyDispatches(v3, p, c, n - 3);
    }
  }

  lemma ThreeMore(w: World, p: nat, c: Choice, n: nat)
    requires n >= 3
    ensures var a := Advance(p, c); var v := Next(w, a);
            && Advanced(w, p, c, n) == Advanced(v, p, c, n - 1) == Advanced(Next(v, a), p, c, n - 2)
            && Advanced(w, p, c, n) == Advanced(Next(Next(v, a), a), p, c, n - 3)
  {
    hide Next;
  }

  /** One delivery on its own: whether it dispatches, exactly. */
  lemma DispatchesAlone(w: World, p: nat, c: Choice)
    requires p in w.procs && w.procs[p].pc.Submitted? && !Shown(w.mirrors, w.procs[p].envelope.delivery)
    ensures var e := w.procs[p].envelope;
            Advanced(w, p, c, 7).dispatches ==
            w.dispatches + (if MayReserve(w.events, e.delivery, w.clock) && Admitted(w, e, c) then [e.delivery] else [])
  {
    hide RowOf, AfterFinalize, AfterReserve, MayReserve, MirrorShowsRun, Advanced, Strip;
    var a, e := Advance(p, c), w.procs[p].envelope;
    var v1 := Next(w, a);
    var v2 := Next(v1, a);
    var v3 := Next(v2, a);
    ThreeMore(w, p, c, 7);
    if !MayReserve(w.events, e.delivery, w.clock) {
      NoMoreDispatches(v1, p, c, 6);
    } else if c.command.None? {
      NoMoreDispatches(v2, p, c, 5);
    } else {
      var identity := ResolveIdentity(w, e, c.command.value);
      assert v2.procs[p].pc == Commanded(c.command.value) && ResolveIdentity(v2, e, c.command.value) == identity;
      match identity
      case Reject => NoMoreDispatches(v3, p, c, 4);
      case Mint => CheckingDispatches(v3, p, c, 4);
      case Resolved(task) => IdentifiedDispatches(v3, p, c, task);
    }
  }

  lemma IdentifiedDispatches(w: World, p: nat, c: Choice, task: string)
    requires p in w.procs && w.procs[p].pc == Identified(task)
             && !MirrorShowsRun(w.mirrors, task, w.procs[p].envelope.delivery)
    ensures Advanced(w, p, c, 4).dispatches ==
            w.dispatches + (if c.allowed && !c.dryRun then [w.procs[p].envelope.delivery] else [])
  {
    hide RowOf, AfterFinalize, Advanced, MirrorShowsRun, MirrorOf;
    var a := Advance(p, c);
    var v1 := Next(w, a);
    var v2 := Next(v1, a);
    ThreeMore(w, p, c, 4);
    assert v1.procs[p].pc == Checking(Some(task));
    if !c.allowed {
      NoMoreDispatches(v2, p, c, 2);
    } else {
      ReadyDispatches(v2, p, c, 2);
    }
  }

  /** The event delivered again, `seconds` later, by a process of its own. */
  function Retry(p: nat, e: Envelope, seconds: nat, c: Choice): seq<Action> {
    [Wait(seconds), Submit(p, e)] + Advances(p, c, 7)
  }

  lemma RetryExactly(w: World, d: string, p: nat, e: Envelope, seconds: nat, c: Choice)
    requires Tidy(w, d) && Abandoned(w, d) && p !in w.procs && e.delivery == d
    ensures seconds > STALE_SECONDS ==> MayReserve(w.events, d, w.clock + seconds)
    ensures Count(Run(w, Retry(p, e, seconds, c)).dispatches, d) ==
            if MayReserve(w.events, d, w.clock + seconds) && Admitted(w, e, c) then 1 else 0
  {
    hide Run, RowOf, Count, Advanced, Advances, ResolveIdentity, MirrorShowsRun;
    var v := w.(clock := w.clock + seconds, procs := w.procs[p := Proc(e, Submitted)]);
    RunConcat(w, [Wait(seconds), Submit(p, e)], Advances(p, c, 7));
    WaitAndSubmit(w, seconds, p, e);
    AdvancesRun(v, p, c, 7);
    assert !Shown(w.mirrors, d);
    DispatchesAlone(v, p, c);
    SameIdentity(w, v, e);
    CountAppend(w.dispatches, d, d);
    assert w.dispatches + [] == w.dispatches;
  }

  lemma SameIdentity(w: World, v: World, e: Envelope)
    requires v.mapping == w.mapping && v.dirs == w.dirs
    ensures forall pm :: ResolveIdentity(v, e, pm) == ResolveIdentity(w, e, pm)
  {
    hide Strip;
  }

  /** No event is stuck behind a dead process. Take any run that reclaimed no live holder, and let the
      holder die before dispatching; whatever happens until somebody reserves the event again, a new
      delivery of it dispatches it, once, exactly when the window has passed and the answers let it
      through. */
  lemma DeadHolderIsReplaced(w: World, acts: seq<Action>, d: string, q: nat, between: seq<Action>,
                             p: nat, e: Envelope, seconds: nat, c: Choice)
    requires Fresh(w) && !Shown(w.mirrors, d) && NoLiveReclaim(w, acts, d) && Holds(Run(w, acts).procs, q, d)
    requires NobodyReserves(Next(Run(w, acts), Crash(q)), between, d)
    requires p !in Run(Next(Run(w, acts), Crash(q)), between).procs && e.delivery == d
    ensures var v := Run(Next(Run(w, acts), Crash(q)), between);
            && (seconds > STALE_SECONDS ==> MayReserve(v.events, d, v.clock + seconds))
            && Count(Run(v, Retry(p, e, seconds, c)).dispatches, d) ==
               if MayReserve(v.events, d, v.clock + seconds) && Admitted(v, e, c) then 1 else 0
  {
    hide Run, Next, Tidy, Abandoned, Holds, MayReserve, Admitted, Count, Retry, NobodyReserves, NoLiveReclaim, Fresh,
         Shown;
    FreshIsTidy(w, d);
    RunTidy(w, acts, d);
    var u := Run(w, acts);
    CrashAbandons(u, q, d);
    CrashIsNoReclaim(u, q, d);
    NextTidy(u, Crash(q), d);
    AbandonedUntilReserved(Next(u, Crash(q)), between, d);
    RunTidy(Next(u, Crash(q)), between, d);
    RetryExactly(Run(Next(u, Crash(q)), between), d, p, e, seconds, c);
  }

  lemma CrashIsNoReclaim(w: World, q: nat, d: string)
    ensures !ReclaimsLive(w, Crash(q), d) && KeepsLedger(Crash(q))
  {
  }
}
