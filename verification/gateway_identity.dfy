/** Who a delivery belongs to: minted ids never clash or change, and a task's own mirror stops a
    second dispatch even after the central ledger is lost. */
module GatewayIdentity {
  import opened Text
  import opened Gateway
  import opened GatewayRuns

  // ---- minted ids ----

  predicate Injective(m: map<string, string>) {
    forall r1, r2 :: r1 in m && r2 in m && r1 != r2 ==> m[r1] != m[r2]
  }

  /** Everything `m` maps stays mapped to the same task. */
  predicate MappingKept(m: map<string, string>, m': map<string, string>) {
    forall r :: r in m ==> r in m' && m'[r] == m[r]
  }

  /** A mint never reuses an id, of another reference or of a directory, however many mints are
      still waiting for their directory. */
  lemma MintIsFresh(mapping: map<string, string>, dirs: set<string>, ref: string)
    ensures var m := AfterMint(mapping, dirs, ref);
            && MappingKept(mapping, m)
            && ref in m
            && (ref !in mapping ==> m[ref] !in mapping.Values && m[ref] !in dirs)
            && (Injective(mapping) ==> Injective(m))
  {
    hide Highest, IsHighest, MintedId;
    NextIdIsFresh(mapping.Values + dirs);
    var m := AfterMint(mapping, dirs, ref);
    if ref !in mapping {
      assert forall r :: r in mapping ==> mapping[r] in mapping.Values;
    }
  }

  lemma StepMapping(w: World, a: Action)
    ensures MappingKept(w.mapping, Next(w, a).mapping)
    ensures Injective(w.mapping) ==> Injective(Next(w, a).mapping)
  {
    hide AfterReserve, AfterFinalize, MayReserve, ResolveIdentity, AfterMint, MirrorShowsRun, RowOf, Strip, Injective;
    if a.Advance? && a.p in w.procs {
      MintIsFresh(w.mapping, w.dirs, Strip(w.procs[a.p].envelope.ref));
    }
  }

  lemma KeptTrans(a: map<string, string>, b: map<string, string>, c: map<string, string>)
    requires MappingKept(a, b) && MappingKept(b, c)
    ensures MappingKept(a, c)
  {
  }

  /** Minted ids count up: the next one is the smallest beyond all in use. */
  lemma MintIsNext(mapping: map<string, string>, dirs: set<string>, ref: string)
    requires ref !in mapping
    ensures var id, used := AfterMint(mapping, dirs, ref)[ref], mapping.Values + dirs;
            && (forall other :: other in used ==> MintNumber(other) < MintNumber(id))
            && (MintNumber(id) == 1 || exists other :: other in used && MintNumber(other) == MintNumber(id) - 1)
  {
    hide MintNumber, MintedId;
    MintedIdNumber(Highest(mapping.Values + dirs) + 1);
  }

  /** Over every run, ledger losses included: a reference keeps its task for good, and no two
      references ever share one. */
  lemma {:induction false} MintedIdsAreStable(w: World, acts: seq<Action>)
    requires Injective(w.mapping)
    ensures Injective(Run(w, acts).mapping) && MappingKept(w.mapping, Run(w, acts).mapping)
    decreases |acts|
  {
    hide Next, Injective, MappingKept;
    if acts == [] {
      SameKept(w.mapping);
    } else {
      StepMapping(w, acts[0]);
      MintedIdsAreStable(Next(w, acts[0]), acts[1..]);
      KeptTrans(w.mapping, Next(w, acts[0]).mapping, Run(w, acts).mapping);
    }
  }

  lemma SameKept(m: map<string, string>)
    ensures MappingKept(m, m)
  {
  }

  // ---- the second check ----

  /** The envelope leads to this existing task, whatever its command. */
  predicate LeadsTo(w: World, e: Envelope, t: string) {
    && t in w.dirs
    && if e.task.Some? then e.named && e.task.value == t
       else Strip(e.ref) != "" && Strip(e.ref) in w.mapping && w.mapping[Strip(e.ref)] == t
  }

  lemma LeadsToResolves(w: World, e: Envelope, t: string, pm: bool)
    requires LeadsTo(w, e, t)
    ensures ResolveIdentity(w, e, pm) == Resolved(t)
  {
    hide Strip;
  }

  /** Nobody is past the mirror check for `d`, and whoever delivers it ends up at `t`. */
  predicate Waiting(w: World, x: Proc, t: string) {
    match x.pc
    case Stopped => true
    case Submitted => LeadsTo(w, x.envelope, t)
    case Reserved => LeadsTo(w, x.envelope, t)
    case Commanded(_) => LeadsTo(w, x.envelope, t)
    case Identified(task) => task == t
    case _ => false
  }

  ghost predicate Recovered(w: World, d: string, t: string) {
    && t in w.dirs
    && MirrorShowsRun(w.mirrors, t, d)
    && forall p :: p in w.procs && w.procs[p].envelope.delivery == d ==> Waiting(w, w.procs[p], t)
  }

  predicate SubmitsTo(w: World, a: Action, d: string, t: string) {
    a.Submit? && a.envelope.delivery == d ==> LeadsTo(w, a.envelope, t)
  }

  lemma WaitingStays(w: World, v: World, x: Proc, t: string)
    requires Waiting(w, x, t) && w.dirs <= v.dirs && MappingKept(w.mapping, v.mapping)
    ensures Waiting(v, x, t)
  {
    hide Strip;
  }

  lemma StepMirror(w: World, p: nat, c: Choice, d: string, t: string)
    requires p in w.procs && Recovered(w, d, t)
    ensures MirrorShowsRun(Step(w, p, c).mirrors, t, d)
  {
    hide AfterReserve, AfterFinalize, MayReserve, ResolveIdentity, AfterMint, RowOf, Strip, LeadsTo, Terminal;
  }

  lemma StepWaiting(w: World, p: nat, c: Choice, t: string)
    requires p in w.procs && Waiting(w, w.procs[p], t) && MirrorShowsRun(w.mirrors, t, w.procs[p].envelope.delivery)
    ensures Waiting(w, Step(w, p, c).procs[p], t)
    ensures Step(w, p, c).dispatches == w.dispatches
  {
    hide AfterReserve, AfterFinalize, MayReserve, ResolveIdentity, AfterMint, RowOf, Strip, LeadsTo, MirrorShowsRun;
    if w.procs[p].pc.Commanded? {
      LeadsToResolves(w, w.procs[p].envelope, t, w.procs[p].pc.pm);
    }
  }

  lemma StepOthers(w: World, p: nat, c: Choice, d: string)
    requires p in w.procs
    ensures Step(w, p, c).dirs == w.dirs
    ensures w.procs[p].envelope.delivery != d ==> Count(Step(w, p, c).dispatches, d) == Count(w.dispatches, d)
  {
    hide AfterReserve, AfterFinalize, MayReserve, ResolveIdentity, AfterMint, RowOf, Strip, Count, MirrorShowsRun,
         MirrorOf;
    CountAppend(w.dispatches, w.procs[p].envelope.delivery, d);
  }

  predicate OnlyMoved(procs: map<nat, Proc>, procs': map<nat, Proc>, p: nat) {
    && p in procs && p in procs' && procs'[p].envelope == procs[p].envelope
    && forall q :: q in procs' ==> q in procs && (q != p ==> procs'[q] == procs[q])
  }

  lemma GoMoves(w: World, p: nat, pc: Pc)
    requires p in w.procs
    ensures OnlyMoved(w.procs, Go(w, p, pc).procs, p)
    ensures Go(w, p, pc).dirs == w.dirs && Go(w, p, pc).mirrors == w.mirrors
  {
  }

  lemma NoteMoves(w: World, p: nat, o: RowOutcome, task: Option<string>, pc: Pc)
    requires p in w.procs
    ensures OnlyMoved(w.procs, Note(w, p, o, task, pc).procs, p)
  {
    hide OnlyMoved, Go, AfterFinalize;
    GoMoves(w.(events := AfterFinalize(w.events, w.procs[p].envelope.delivery, o, task)), p, pc);
  }

  lemma StepMovesOne(w: World, p: nat, c: Choice)
    requires p in w.procs
    ensures OnlyMoved(w.procs, Step(w, p, c).procs, p)
  {
    hide AfterReserve, AfterFinalize, MayReserve, ResolveIdentity, AfterMint, RowOf, Strip, MirrorShowsRun, MirrorOf,
         Go, Note, OnlyMoved;
    forall v: World, pc: Pc | p in v.procs ensures OnlyMoved(v.procs, Go(v, p, pc).procs, p) {
      GoMoves(v, p, pc);
    }
    forall o, task, pc ensures OnlyMoved(w.procs, Note(w, p, o, task, pc).procs, p) {
      NoteMoves(w, p, o, task, pc);
    }
    NothingMoves(w.procs, p);
    MintIsFresh(w.mapping, w.dirs, Strip(w.procs[p].envelope.ref));
  }

  lemma NothingMoves(procs: map<nat, Proc>, p: nat)
    requires p in procs
    ensures OnlyMoved(procs, procs, p)
  {
  }

  lemma NextRecovered(w: World, a: Action, d: string, t: string)
    requires Recovered(w, d, t) && SubmitsTo(w, a, d, t)
    ensures Recovered(Next(w, a), d, t) && Count(Next(w, a).dispatches, d) == Count(w.dispatches, d)
  {
    hide Step, Count, MirrorShowsRun, LeadsTo, MappingKept, Injective;
    var v := Next(w, a);
    StepMapping(w, a);
    if a.Advance? && a.p in w.procs {
      StepMirror(w, a.p, a.choice, d, t);
      StepOthers(w, a.p, a.choice, d);
      StepMovesOne(w, a.p, a.choice);
      if w.procs[a.p].envelope.delivery == d {
        StepWaiting(w, a.p, a.choice, t);
      }
    }
    forall p | p in v.procs && v.procs[p].envelope.delivery == d ensures Waiting(v, v.procs[p], t) {
      WaitingStays(w, v, v.procs[p], t);
    }
  }

  ghost predicate SubmissionsLeadTo(w: World, acts: seq<Action>, d: string, t: string)
    decreases |acts|
  {
    acts != [] ==> SubmitsTo(w, acts[0], d, t) && SubmissionsLeadTo(Next(w, acts[0]), acts[1..], d, t)
  }

  /** Once a delivery's run is on its task's mirror and no process is past the mirror check with it, it is
      never dispatched again: not by retries, not by stale reclaims, and not after the central ledger is
      deleted. */
  lemma {:induction false} MirrorSurvivesLedgerLoss(w: World, acts: seq<Action>, d: string, t: string)
    requires Recovered(w, d, t) && SubmissionsLeadTo(w, acts, d, t)
    ensures Count(Run(w, acts).dispatches, d) == Count(w.dispatches, d)
    ensures MirrorShowsRun(Run(w, acts).mirrors, t, d)
    decreases |acts|
  {
    hide Next, Count, SubmitsTo, Waiting, MirrorShowsRun;
    if acts != [] {
      NextRecovered(w, acts[0], d, t);
      MirrorSurvivesLedgerLoss(Next(w, acts[0]), acts[1..], d, t);
    }
  }
}
