/** Concurrent dispatches over the ownership store. Every operation runs under the task's lock, so
    an interleaving is a list of actions; `at` is the time a process read, which for all but the
    fence was before it got the lock. */
module OwnershipRuns {
  import opened Text
  import opened Ownership

  datatype Event =
    | GrantEvent(task: string, run: string, epoch: nat)
    | WriteEvent(task: string, run: string, lane: Lane)
    | EndEvent(task: string, run: string, how: Ending)

  /** The trace records the grants, the status writes that landed, and the releases, each with the run
      whose ownership it ended. */
  datatype World = World(slots: Slots, clock: int, trace: seq<Event>)

  datatype Action =
    | Tick(seconds: nat)
    | AcquireStep(task: string, ask: Ask, at: int)
    | RenewStep(task: string, run: string, lease: int, at: int)
    | ReleaseStep(task: string, run: string, force: bool, at: int)
    | WriteStep(task: string, run: string, credential: Credential, orchestrator: bool, lease: int, at: int)

  function VerdictOf(w: World, a: Action): Verdict
    requires a.WriteStep?
  {
    FenceVerdict(SlotOf(w.slots, a.task), a.run, a.credential, a.orchestrator, a.at)
  }

  function Next(w: World, a: Action): World {
    match a
    case Tick(seconds) => w.(clock := w.clock + seconds)
    case AcquireStep(task, ask, at) =>
      if !MayAcquire(w.slots, task, ask, at) then w
      else
        var r := Granted(SlotOf(w.slots, task), ask, at);
        w.(slots := w.slots[task := Record(r)], trace := w.trace + [GrantEvent(task, ask.run, r.epoch)])
    case RenewStep(task, run, lease, at) =>
      var slot := SlotOf(w.slots, task);
      if !MayRenew(slot, run) then w else w.(slots := w.slots[task := Record(Extended(slot.register, at + lease))])
    case ReleaseStep(task, run, force, at) =>
      var slot := SlotOf(w.slots, task);
      if !MayRelease(slot, run, force) || !slot.Record? || slot.register.holder.None? then w
      else
        w.(slots := w.slots[task := Record(AfterRelease(slot.register, run, at))],
           trace := w.trace + [EndEvent(task, slot.register.holder.value.run,
                                        if HeldBy(slot.register, run) then Released else Superseded)])
    case WriteStep(task, run, credential, orchestrator, lease, at) =>
      var slot, v := SlotOf(w.slots, task), VerdictOf(w, a);
      if v.Refused? then w
      else
        w.(slots := if slot.NoRecord? then w.slots else w.slots[task := AfterFence(slot, v, lease, at)],
           trace := w.trace + [WriteEvent(task, run, v.lane)])
  }

  function Run(w: World, acts: seq<Action>): World
    decreases |acts|
  {
    if acts == [] then w else Run(Next(w, acts[0]), acts[1..])
  }

  // ---- epoch fencing, with no assumption on any clock ----

  function EventEpoch(e: Event): Option<nat> {
    match e
    case GrantEvent(_, _, epoch) => Some(epoch)
    case WriteEvent(_, _, lane) => if lane.OwnerLane? then Some(lane.epoch) else None
    case EndEvent(_, _, _) => None
  }

  /** Read along the trace of one task, epochs never fall, and each grant raises them. */
  predicate InOrder(e: Event, f: Event) {
    e.task == f.task && EventEpoch(e).Some? && EventEpoch(f).Some? ==>
      && EventEpoch(e).value <= EventEpoch(f).value
      && (f.GrantEvent? ==> EventEpoch(e).value < EventEpoch(f).value)
  }

  ghost predicate Fenced(trace: seq<Event>) {
    forall i, j :: 0 <= i < j < |trace| ==> InOrder(trace[i], trace[j])
  }

  predicate NotAhead(slots: Slots, e: Event) {
    EventEpoch(e).Some? ==>
      SlotOf(slots, e.task).Record? && EventEpoch(e).value <= SlotOf(slots, e.task).register.epoch
  }

  ghost predicate FencingKept(w: World) {
    Fenced(w.trace) && forall e :: e in w.trace ==> NotAhead(w.slots, e)
  }

  /** Records are never lost and their epochs never fall. */
  lemma EpochsNeverFall(w: World, a: Action, t: string)
    requires SlotOf(w.slots, t).Record?
    ensures var r, r' := SlotOf(w.slots, t), SlotOf(Next(w, a).slots, t);
            r'.Record? && r.register.epoch <= r'.register.epoch
  {
    hide Blank, WorktreeFree;
  }

  lemma FencingStep(w: World, a: Action)
    requires FencingKept(w)
    ensures FencingKept(Next(w, a))
    ensures w.trace <= Next(w, a).trace
  {
    hide Blank, WorktreeFree, MayAcquire, InOrder;
    var v := Next(w, a);
    forall e | e in w.trace ensures NotAhead(v.slots, e) {
      if SlotOf(w.slots, e.task).Record? {
        EpochsNeverFall(w, a, e.task);
      }
    }
    if v.trace != w.trace {
      NewEventInOrder(w, a);
    }
  }

  lemma NewEventInOrder(w: World, a: Action)
    requires FencingKept(w) && Next(w, a).trace != w.trace
    ensures |Next(w, a).trace| == |w.trace| + 1
    ensures var f := Next(w, a).trace[|w.trace|];
            NotAhead(Next(w, a).slots, f) && forall i :: 0 <= i < |w.trace| ==> InOrder(w.trace[i], f)
  {
    hide Blank, WorktreeFree, MayAcquire, Fenced;
    forall i | 0 <= i < |w.trace| ensures InOrder(w.trace[i], Next(w, a).trace[|w.trace|]) {
      assert NotAhead(w.slots, w.trace[i]);
    }
  }

  lemma {:induction false} FencingRun(w: World, acts: seq<Action>)
    requires FencingKept(w)
    ensures FencingKept(Run(w, acts)) && w.trace <= Run(w, acts).trace
    decreases |acts|
  {
    hide FencingKept, Next;
    if acts != [] {
      FencingStep(w, acts[0]);
      FencingRun(Next(w, acts[0]), acts[1..]);
    }
  }

  /** Over every interleaving, from any store and under any clocks: each grant of a task carries a
      larger epoch than everything before it, and once an epoch is granted no status write presented
      with a smaller one lands, whether or not the new holder has released. */
  lemma EpochFencing(w: World, acts: seq<Action>)
    requires w.trace == []
    ensures Fenced(Run(w, acts).trace)
  {
    FencingRun(w, acts);
  }

  ghost predicate GrantedTo(trace: seq<Event>, n: nat, task: string, run: string, epoch: nat)
    requires n <= |trace|
  {
    exists i :: 0 <= i < n && trace[i] == GrantEvent(task, run, epoch)
  }

  /** A writer presents only an epoch that was granted to its own run. */
  ghost predicate Honest(w: World, a: Action) {
    a.WriteStep? && LaneEpoch(a.credential, a.orchestrator).Some? ==>
      GrantedTo(w.trace, |w.trace|, a.task, a.run, LaneEpoch(a.credential, a.orchestrator).value)
  }

  ghost predicate HonestRun(w: World, acts: seq<Action>)
    decreases |acts|
  {
    acts != [] ==> Honest(w, acts[0]) && HonestRun(Next(w, acts[0]), acts[1..])
  }

  ghost predicate WritesWereGranted(trace: seq<Event>) {
    forall j :: 0 <= j < |trace| && trace[j].WriteEvent? && trace[j].lane.OwnerLane? ==>
      GrantedTo(trace, j, trace[j].task, trace[j].run, trace[j].lane.epoch)
  }

  lemma GrantedToStays(trace: seq<Event>, more: seq<Event>, n: nat, task: string, run: string, epoch: nat)
    requires n <= |trace| && trace <= more
    ensures GrantedTo(trace, n, task, run, epoch) <==> GrantedTo(more, n, task, run, epoch)
  {
    assert forall i :: 0 <= i < n ==> trace[i] == more[i];
  }

  lemma HonestStep(w: World, a: Action)
    requires WritesWereGranted(w.trace) && Honest(w, a)
    ensures WritesWereGranted(Next(w, a).trace)
  {
    hide Blank, WorktreeFree, MayAcquire, GrantedTo, Granted;
    var trace := Next(w, a).trace;
    forall j | 0 <= j < |trace| && trace[j].WriteEvent? && trace[j].lane.OwnerLane?
      ensures GrantedTo(trace, j, trace[j].task, trace[j].run, trace[j].lane.epoch)
    {
      if j < |w.trace| {
        assert trace[j] == w.trace[j];
        GrantedToStays(w.trace, trace, j, trace[j].task, trace[j].run, trace[j].lane.epoch);
      } else {
        GrantedToStays(w.trace, trace, |w.trace|, trace[j].task, trace[j].run, trace[j].lane.epoch);
      }
    }
  }

  lemma {:induction false} HonestRunsAreGranted(w: World, acts: seq<Action>)
    requires WritesWereGranted(w.trace) && HonestRun(w, acts)
    ensures WritesWereGranted(Run(w, acts).trace)
    decreases |acts|
  {
    hide Next, WritesWereGranted, Honest;
    if acts != [] {
      HonestStep(w, acts[0]);
      HonestRunsAreGranted(Next(w, acts[0]), acts[1..]);
    }
  }

  /** Every landed owner write is by the run of the task's latest grant. */
  lemma LandedWritesAreTheLatestOwners(w: World, acts: seq<Action>, j: nat) returns (i: nat)
    requires w.trace == [] && HonestRun(w, acts)
    requires var trace := Run(w, acts).trace; j < |trace| && trace[j].WriteEvent? && trace[j].lane.OwnerLane?
    ensures var trace := Run(w, acts).trace;
            && i < j
            && trace[i] == GrantEvent(trace[j].task, trace[j].run, trace[j].lane.epoch)
            && forall k :: i < k < j ==> !(trace[k].GrantEvent? && trace[k].task == trace[j].task)
  {
    hide Run, Next;
    EpochFencing(w, acts);
    HonestRunsAreGranted(w, acts);
    var trace := Run(w, acts).trace;
    i :| 0 <= i < j && trace[i] == GrantEvent(trace[j].task, trace[j].run, trace[j].lane.epoch);
    forall k | i < k < j ensures !(trace[k].GrantEvent? && trace[k].task == trace[j].task) {
      assert InOrder(trace[i], trace[k]) && InOrder(trace[k], trace[j]);
    }
  }

  // ---- the epoch counts the grants ----

  function Grants(trace: seq<Event>, t: string): nat {
    if trace == [] then 0
    else
      var last := trace[|trace| - 1];
      Grants(trace[..|trace| - 1], t) + (if last.GrantEvent? && last.task == t then 1 else 0)
  }

  function EpochAt(slots: Slots, t: string): nat {
    if SlotOf(slots, t).Record? then SlotOf(slots, t).register.epoch else 0
  }

  lemma GrantsStep(w: World, a: Action, t: string)
    ensures EpochAt(Next(w, a).slots, t) - Grants(Next(w, a).trace, t) == EpochAt(w.slots, t) - Grants(w.trace, t)
  {
    hide Blank, WorktreeFree;
    var trace := Next(w, a).trace;
    if trace != w.trace {
      assert trace[..|trace| - 1] == w.trace;
    }
  }

  /** No epoch is skipped or given twice: a task's epoch rises by exactly its number of grants. */
  lemma {:induction false} EpochCountsGrants(w: World, acts: seq<Action>, t: string)
    ensures EpochAt(Run(w, acts).slots, t) - EpochAt(w.slots, t) == Grants(Run(w, acts).trace, t) - Grants(w.trace, t)
    decreases |acts|
  {
    hide Next, Grants, EpochAt;
    if acts != [] {
      GrantsStep(w, acts[0], t);
      EpochCountsGrants(Next(w, acts[0]), acts[1..], t);
    }
  }

  // ---- lease exclusion, with a clock that never goes back ----

  /** Times read before taking a lock may be old, never ahead; the fence reads under the lock. */
  predicate Timely(w: World, a: Action) {
    match a
    case Tick(_) => true
    case WriteStep(_, _, _, _, _, at) => at == w.clock
    case _ => a.at <= w.clock
  }

  /** Run `r` holds the task on an unlapsed lease. */
  predicate Alive(w: World, t: string, r: string) {
    var s := SlotOf(w.slots, t);
    s.Record? && HeldBy(s.register, r) && !Expired(s.register.holder.value, w.clock)
  }

  /** What ends a lease: time, a release by its run or by force, or its own run shortening it. */
  predicate Ends(w: World, a: Action, t: string, r: string)
    requires Alive(w, t, r)
  {
    match a
    case Tick(seconds) => SlotOf(w.slots, t).register.holder.value.expires <= w.clock + seconds
    case AcquireStep(u, ask, at) => u == t && MayAcquire(w.slots, t, ask, at) && at + ask.lease <= w.clock
    case RenewStep(u, run, lease, at) => u == t && run == r && !Blank(r) && at + lease <= w.clock
    case ReleaseStep(u, run, force, _) => u == t && (force || run == r)
    case WriteStep(u, _, _, _, lease, at) =>
      u == t && VerdictOf(w, a).Allowed? && VerdictOf(w, a).lane.OwnerLane? && at + lease <= w.clock
  }

  /** A grant to another run, or a landed write of another run. A writer that presents the
      current epoch without naming its run counts as the owner's. */
  predicate Foreign(e: Event, t: string, r: string) {
    e.task == t && e.run != r && (e.WriteEvent? && e.lane.OwnerLane? ==> !Blank(e.run))
  }

  ghost predicate NoForeign(trace: seq<Event>, t: string, r: string) {
    forall e :: e in trace ==> !Foreign(e, t, r)
  }

  /** One action ends a live lease exactly when `Ends` says so, and while it lives nothing
      of another run is granted or lands. */
  lemma LeaseEndsExactly(w: World, a: Action, t: string, r: string)
    requires Alive(w, t, r) && Timely(w, a)
    ensures Alive(Next(w, a), t, r) <==> !Ends(w, a, t, r)
    ensures w.trace <= Next(w, a).trace && NoForeign(Next(w, a).trace[|w.trace|..], t, r)
  {
    hide Blank, WorktreeFree;
    if a.AcquireStep? && a.task == t && MayAcquire(w.slots, t, a.ask, a.at) {
      assert a.ask.run == r;
    }
  }

  ghost predicate Uninterrupted(w: World, acts: seq<Action>, t: string, r: string)
    requires Alive(w, t, r)
    decreases |acts|
  {
    acts != [] ==>
      && Timely(w, acts[0]) && !Ends(w, acts[0], t, r)
      && (LeaseEndsExactly(w, acts[0], t, r); Uninterrupted(Next(w, acts[0]), acts[1..], t, r))
  }

  /** From a grant until its release or lapse no other run acquires the task and no write of
      another run lands on it, whatever else the other processes do. */
  lemma {:induction false} LeaseExclusion(w: World, acts: seq<Action>, t: string, r: string)
    requires Alive(w, t, r) && Uninterrupted(w, acts, t, r)
    ensures Alive(Run(w, acts), t, r)
    ensures w.trace <= Run(w, acts).trace && NoForeign(Run(w, acts).trace[|w.trace|..], t, r)
    decreases |acts|
  {
    hide Next, Alive, Foreign, Ends, Timely;
    if acts != [] {
      LeaseEndsExactly(w, acts[0], t, r);
      var v := Next(w, acts[0]);
      LeaseExclusion(v, acts[1..], t, r);
      var trace := Run(w, acts).trace;
      assert trace[|w.trace|..] == v.trace[|w.trace|..] + trace[|v.trace|..];
    }
  }

  // ---- worktree exclusivity across tasks ----

  /** No two tasks have live exclusive holders on one worktree. */
  ghost predicate WorktreesExclusive(w: World) {
    forall t, u, tree :: t in w.slots && u in w.slots && t != u && Keeps(w.slots[t], tree, w.clock) ==>
          !Keeps(w.slots[u], tree, w.clock)
  }

  /** The office runs with worktree_exclusive on. */
  predicate ChecksWorktrees(a: Action) {
    a.AcquireStep? ==> a.ask.worktreeExclusive
  }

  /** The action renews the lease of the exclusive holder of `t`, whose lease had lapsed. */
  predicate RenewsLapsed(w: World, a: Action, t: string) {
    && (a.RenewStep? || a.WriteStep?) && a.task == t
    && var s := SlotOf(w.slots, t);
    && s.Record? && s.register.holder.Some?
    && Expired(s.register.holder.value, w.clock) && w.clock < a.at + a.lease
    && s.register.holder.value.mode.Exclusive?
    && (a.RenewStep? ==> MayRenew(s, a.run))
    && (a.WriteStep? ==> VerdictOf(w, a).Allowed? && VerdictOf(w, a).lane.OwnerLane?)
  }

  /** It revives a lapsed lease on a worktree that another task took meanwhile. */
  ghost predicate Revives(w: World, a: Action) {
    exists t, u :: RevivesAgainst(w, a, t, u)
  }

  predicate RevivesAgainst(w: World, a: Action, t: string, u: string) {
    && RenewsLapsed(w, a, t) && t in w.slots && u in w.slots && t != u
    && var tree := w.slots[t].register.holder.value.worktree;
    tree.Some? && Keeps(w.slots[u], tree.value, w.clock)
  }

  lemma EarlierIsLive(s: Slot, tree: string, early: int, late: int)
    requires early <= late && Keeps(s, tree, late)
    ensures Keeps(s, tree, early)
  {
  }

  /** A slot that keeps a worktree after the action kept it before, unless the action granted it
      or revived it. */
  lemma KeptBefore(w: World, a: Action, t: string, tree: string)
    requires Timely(w, a)
    requires t in Next(w, a).slots && Keeps(Next(w, a).slots[t], tree, Next(w, a).clock)
    ensures || (t in w.slots && Keeps(w.slots[t], tree, w.clock))
            || (a.AcquireStep? && a.task == t && MayAcquire(w.slots, t, a.ask, a.at) && a.ask.mode.Exclusive?
                && a.ask.worktree == tree && !Blank(tree))
            || (t in w.slots && RenewsLapsed(w, a, t) && w.slots[t].register.holder.value.worktree == Some(tree))
  {
    hide Blank, WorktreeFree;
  }

  lemma GrantFoundItFree(w: World, a: Action, u: string)
    requires Timely(w, a) && ChecksWorktrees(a)
    requires a.AcquireStep? && MayAcquire(w.slots, a.task, a.ask, a.at) && a.ask.mode.Exclusive?
             && !Blank(a.ask.worktree)
    requires u in w.slots && u != a.task
    ensures !Keeps(w.slots[u], a.ask.worktree, w.clock)
  {
    hide Blank;
    if Keeps(w.slots[u], a.ask.worktree, w.clock) {
      EarlierIsLive(w.slots[u], a.ask.worktree, a.at, w.clock);
    }
  }

  /** One action keeps worktrees exclusive exactly when it does not revive a lapsed lease on a
      worktree taken meanwhile: neither renew nor the fence asks whether the lease had lapsed. */
  lemma ExclusiveExactly(w: World, a: Action)
    requires WorktreesExclusive(w) && Timely(w, a) && ChecksWorktrees(a)
    ensures WorktreesExclusive(Next(w, a)) <==> !Revives(w, a)
  {
    hide Next, Keeps, Timely, RevivesAgainst, MayAcquire, Blank;
    var v := Next(w, a);
    if !Revives(w, a) {
      forall t, u, tree | t in v.slots && u in v.slots && t != u && Keeps(v.slots[t], tree, v.clock)
        ensures !Keeps(v.slots[u], tree, v.clock)
      {
        if Keeps(v.slots[u], tree, v.clock) {
          ClashMeansRevival(w, a, t, u, tree);
        }
      }
    } else {
      var t, u :| RevivesAgainst(w, a, t, u);
      RevivalClashes(w, a, t, u);
    }
  }

  lemma RevivalClashes(w: World, a: Action, t: string, u: string)
    requires Timely(w, a) && RevivesAgainst(w, a, t, u)
    ensures !WorktreesExclusive(Next(w, a))
  {
    hide Blank, WorktreeFree;
    var tree := w.slots[t].register.holder.value.worktree.value;
    var v := Next(w, a);
    assert Keeps(v.slots[t], tree, v.clock);
    assert Keeps(v.slots[u], tree, v.clock);
  }

  lemma ClashMeansRevival(w: World, a: Action, t: string, u: string, tree: string)
    requires WorktreesExclusive(w) && Timely(w, a) && ChecksWorktrees(a)
    requires t in Next(w, a).slots && u in Next(w, a).slots && t != u
    requires Keeps(Next(w, a).slots[t], tree, Next(w, a).clock) && Keeps(Next(w, a).slots[u], tree, Next(w, a).clock)
    ensures Revives(w, a)
  {
    hide Next, Keeps, MayAcquire, Blank;
    KeptBefore(w, a, t, tree);
    KeptBefore(w, a, u, tree);
    if a.AcquireStep? && a.task == t && u in w.slots && a.ask.mode.Exclusive? && MayAcquire(w.slots, t, a.ask, a.at)
        && !Blank(a.ask.worktree) {
      GrantFoundItFree(w, a, u);
    }
    if a.AcquireStep? && a.task == u && t in w.slots && a.ask.mode.Exclusive? && MayAcquire(w.slots, u, a.ask, a.at)
        && !Blank(a.ask.worktree) {
      GrantFoundItFree(w, a, t);
    }
    assert RevivesAgainst(w, a, t, u) || RevivesAgainst(w, a, u, t);
  }

  ghost predicate GuardedRun(w: World, acts: seq<Action>)
    decreases |acts|
  {
    acts != [] ==>
      && Timely(w, acts[0]) && ChecksWorktrees(acts[0]) && (forall t :: !RenewsLapsed(w, acts[0], t))
      && GuardedRun(Next(w, acts[0]), acts[1..])
  }

  /** Where renewals touch unlapsed leases only, no two tasks ever share a worktree exclusively. */
  lemma {:induction false} WorktreesStayExclusive(w: World, acts: seq<Action>)
    requires WorktreesExclusive(w) && GuardedRun(w, acts)
    ensures WorktreesExclusive(Run(w, acts))
    decreases |acts|
  {
    hide Next, WorktreesExclusive, Timely, ChecksWorktrees, RenewsLapsed;
    if acts != [] {
      ExclusiveExactly(w, acts[0]);
      WorktreesStayExclusive(Next(w, acts[0]), acts[1..]);
    }
  }

  lemma FourSteps(w: World, acts: seq<Action>)
    requires |acts| == 4
    ensures Run(w, acts[..1]) == Next(w, acts[0])
    ensures Run(w, acts[..2]) == Next(Run(w, acts[..1]), acts[1])
    ensures Run(w, acts[..3]) == Next(Run(w, acts[..2]), acts[2])
    ensures Run(w, acts) == Next(Run(w, acts[..3]), acts[3])
  {
    hide Next;
    RunLast(w, acts[..1]);
    RunLast(w, acts[..2]);
    RunLast(w, acts[..3]);
    RunLast(w, acts);
    assert acts[..1][..0] == [] && acts[..2][..1] == acts[..1] && acts[..3][..2] == acts[..2];
  }

  lemma {:induction false} RunLast(w: World, acts: seq<Action>)
    requires acts != []
    ensures Run(w, acts) == Next(Run(w, acts[..|acts| - 1]), acts[|acts| - 1])
    decreases |acts|
  {
    hide Next;
    var front := acts[..|acts| - 1];
    if front != [] {
      RunLast(Next(w, acts[0]), acts[1..]);
      assert front[1..] == acts[1..][..|acts[1..]| - 1];
    } else {
      assert acts[1..] == [];
    }
  }

  const LATE_ASK_A := Ask("r1", "tree", Exclusive, 10, true)
  const LATE_ASK_B := Ask("r2", "tree", Exclusive, 10, true)
  const LATE_A := Register(1, Some(Holder("r1", Some("tree"), Exclusive, 0, 10)), [])
  const LATE_B := Register(1, Some(Holder("r2", Some("tree"), Exclusive, 20, 30)), [])

  lemma NotBlank(w: string)
    requires |w| > 0 && !IsSpace(w[0])
    ensures !Blank(w)
  {
  }

  lemma FirstGrant()
    ensures Next(World(map[], 0, []), AcquireStep("A", LATE_ASK_A, 0)) ==
            World(map["A" := Record(LATE_A)], 0, [GrantEvent("A", "r1", 1)])
  {
    hide Blank;
    NotBlank("r1");
    NotBlank("tree");
  }

  lemma SecondGrant(trace: seq<Event>)
    ensures Next(World(map["A" := Record(LATE_A)], 20, trace), AcquireStep("B", LATE_ASK_B, 20)) ==
              World(map["A" := Record(LATE_A), "B" := Record(LATE_B)], 20, trace + [GrantEvent("B", "r2", 1)])
  {
    hide Blank;
    NotBlank("r2");
    NotBlank("tree");
  }

  lemma LateRenewal(trace: seq<Event>)
    ensures var w := World(map["A" := Record(LATE_A), "B" := Record(LATE_B)], 20, trace);
            !WorktreesExclusive(Next(w, RenewStep("A", "r1", 10, 20)))
  {
    hide Blank;
    NotBlank("r1");
    var v := Next(World(map["A" := Record(LATE_A), "B" := Record(LATE_B)], 20, trace), RenewStep("A", "r1", 10, 20));
    assert Keeps(v.slots["A"], "tree", 20) && Keeps(v.slots["B"], "tree", 20);
  }

  /** The hypothesis is needed: run r1 outlives its lease, r2 takes the worktree for another
      task, and r1's late renewal leaves both holding it. */
  lemma LateRenewalSharesWorktree() returns (acts: seq<Action>)
    ensures var w := World(map[], 0, []);
            && WorktreesExclusive(w)
            && (forall a :: a in acts ==> ChecksWorktrees(a))
            && (forall k :: 0 <= k < |acts| ==> Timely(Run(w, acts[..k]), acts[k]))
            && !WorktreesExclusive(Run(w, acts))
  {
    hide Next, WorktreesExclusive, Run;
    var w := World(map[], 0, []);
    acts := [AcquireStep("A", LATE_ASK_A, 0), Tick(20), AcquireStep("B", LATE_ASK_B, 20), RenewStep("A", "r1", 10, 20)];
    FourSteps(w, acts);
    FirstGrant();
    var w1 := Next(w, acts[0]);
    var w2 := w1.(clock := 20);
    TickSets(w1, 20);
    SecondGrant(w2.trace);
    LateRenewal(w2.trace + [GrantEvent("B", "r2", 1)]);
    assert WorktreesExclusive(w) by { NobodyClashes(w); }
    assert acts[..0] == [];
    RunNothing(w);
  }

  lemma TickSets(w: World, seconds: nat)
    ensures Next(w, Tick(seconds)) == w.(clock := w.clock + seconds)
  {
  }

  lemma RunNothing(w: World)
    ensures Run(w, []) == w
  {
  }

  lemma NobodyClashes(w: World)
    requires w.slots == map[]
    ensures WorktreesExclusive(w)
  {
  }

  // ---- the history is a complete account ----

  /** Rows are in grant order, one per ended ownership, none for the current one. */
  predicate HistoryOk(r: Register) {
    && (forall i, j :: 0 <= i < j < |r.history| ==> r.history[i].epoch < r.history[j].epoch)
    && (forall p :: p in r.history ==> p.epoch <= r.epoch && (r.holder.Some? ==> p.epoch < r.epoch))
  }

  /** The run that owns a task, with the epoch of its latest grant. */
  datatype Owner = Owner(run: string, epoch: nat)

  datatype EndedRow = EndedRow(run: string, epoch: nat, how: Ending)

  /** Who owns a task, and every ownership that has ended, in order. An ownership lasts from a grant
      to a run until a release or a grant to another run; grants to the same run continue it. */
  datatype Account = Account(owner: Option<Owner>, ended: seq<EndedRow>)

  /** The account, kept by whoever watches the trace. */
  function After(a: Account, e: Event, t: string): Account {
    if e.task != t then a
    else match e
      case WriteEvent(_, _, _) => a
      case GrantEvent(_, run, epoch) =>
        Account(Some(Owner(run, epoch)),
                if a.owner.Some? && a.owner.value.run != run
                then a.ended + [EndedRow(a.owner.value.run, a.owner.value.epoch, Reclaimed)] else a.ended)
      case EndEvent(_, _, how) =>
        if a.owner.Some? then Account(None, a.ended + [EndedRow(a.owner.value.run, a.owner.value.epoch, how)]) else a
  }

  function Replay(a: Account, trace: seq<Event>, t: string): Account {
    if trace == [] then a else After(Replay(a, trace[..|trace| - 1], t), trace[|trace| - 1], t)
  }

  function RowsOf(history: seq<Past>): (r: seq<EndedRow>)
    ensures |r| == |history| && forall i :: 0 <= i < |r| ==>
              r[i] == EndedRow(history[i].run, history[i].epoch, history[i].how)
  {
    seq(|history|, i requires 0 <= i < |history| => EndedRow(history[i].run, history[i].epoch, history[i].how))
  }

  /** The account as the record itself tells it. */
  function Book(s: Slot): Account {
    if !s.Record? then Account(None, [])
    else
      Account(if s.register.holder.Some? then Some(Owner(s.register.holder.value.run, s.register.epoch)) else None,
              RowsOf(s.register.history))
  }

  lemma BookedRow(r: Register, at: int, how: Ending)
    requires r.holder.Some?
    ensures RowsOf(Archived(r, at, how)) == RowsOf(r.history) + [EndedRow(r.holder.value.run, r.epoch, how)]
  {
  }

  /** One action enters in the record what the trace tells of it, and nothing else. */
  lemma BookStep(w: World, a: Action, t: string)
    ensures w.trace <= Next(w, a).trace
    ensures Book(SlotOf(Next(w, a).slots, t)) == Replay(Book(SlotOf(w.slots, t)), Next(w, a).trace[|w.trace|..], t)
  {
    hide Blank, WorktreeFree, RowsOf, Archived;
    var s, v := SlotOf(w.slots, t), Next(w, a);
    if s.Record? && s.register.holder.Some? {
      forall at, how { BookedRow(s.register, at, how); }
    }
    if v.trace != w.trace {
      var e := v.trace[|w.trace|];
      assert v.trace[|w.trace|..] == [e];
      ReplayOne(Book(s), e, t);
      EmptyRows();
    } else {
      assert v.trace[|w.trace|..] == [];
    }
  }

  lemma EmptyRows()
    ensures RowsOf([]) == []
  {
  }

  lemma ReplayOne(a: Account, e: Event, t: string)
    ensures Replay(a, [e], t) == After(a, e, t)
  {
    assert [e][..0] == [];
  }

  lemma {:induction false} ReplayConcat(a: Account, x: seq<Event>, y: seq<Event>, t: string)
    ensures Replay(a, x + y, t) == Replay(Replay(a, x, t), y, t)
  {
    hide After;
    if y == [] {
      assert x + y == x;
    } else {
      assert (x + y)[..|x + y| - 1] == x + y[..|y| - 1];
      ReplayConcat(a, x, y[..|y| - 1], t);
    }
  }

  lemma {:induction false} BookFollowsTrace(w: World, acts: seq<Action>, t: string)
    ensures w.trace <= Run(w, acts).trace
    ensures Book(SlotOf(Run(w, acts).slots, t)) == Replay(Book(SlotOf(w.slots, t)), Run(w, acts).trace[|w.trace|..], t)
    decreases |acts|
  {
    hide Next, Book, After;
    if acts == [] {
      assert w.trace[|w.trace|..] == [];
    } else {
      var v := Next(w, acts[0]);
      BookStep(w, acts[0], t);
      BookFollowsTrace(v, acts[1..], t);
      var trace := Run(w, acts).trace;
      assert trace[|w.trace|..] == v.trace[|w.trace|..] + trace[|v.trace|..];
      ReplayConcat(Book(SlotOf(w.slots, t)), v.trace[|w.trace|..], trace[|v.trace|..], t);
    }
  }

  /** The record is the exact account of the run: from a store without the task's record, its holder
      is the owner the trace tells and its history is the list of ended ownerships, one row for each,
      in order, whatever the processes did. */
  lemma HistoryIsTheAccount(w: World, acts: seq<Action>, t: string)
    requires w.trace == [] && SlotOf(w.slots, t).NoRecord?
    ensures Book(SlotOf(Run(w, acts).slots, t)) == Replay(Account(None, []), Run(w, acts).trace, t)
  {
    hide Run, RowsOf;
    BookFollowsTrace(w, acts, t);
    assert Run(w, acts).trace[0..] == Run(w, acts).trace;
  }

  lemma HistoryStep(w: World, a: Action, t: string)
    requires SlotOf(w.slots, t).Record? ==> HistoryOk(SlotOf(w.slots, t).register)
    ensures SlotOf(Next(w, a).slots, t).Record? ==> HistoryOk(SlotOf(Next(w, a).slots, t).register)
    ensures SlotOf(w.slots, t).Record? ==>
              SlotOf(Next(w, a).slots, t).Record?
                && SlotOf(w.slots, t).register.history <= SlotOf(Next(w, a).slots, t).register.history
  {
    hide Blank, WorktreeFree;
  }

  /** Over every run history only grows, and its rows stay in the order of the grants. */
  lemma {:induction false} HistoryOnlyGrows(w: World, acts: seq<Action>, t: string)
    requires SlotOf(w.slots, t).Record? && HistoryOk(SlotOf(w.slots, t).register)
    ensures var r := SlotOf(Run(w, acts).slots, t);
            r.Record? && HistoryOk(r.register) && SlotOf(w.slots, t).register.history <= r.register.history
    decreases |acts|
  {
    hide Next, HistoryOk;
    if acts != [] {
      HistoryStep(w, acts[0], t);
      HistoryOnlyGrows(Next(w, acts[0]), acts[1..], t);
    }
  }

  // ---- no granted run is forgotten ----

  predicate IsGrant(e: Event, t: string) { e.GrantEvent? && e.task == t }

  /** Since event `i` the task was neither released nor granted to another run. */
  ghost predicate Unbroken(trace: seq<Event>, i: nat)
    requires i < |trace|
  {
    forall k :: i < k < |trace| && trace[k].task == trace[i].task ==>
      !trace[k].EndEvent? && (trace[k].GrantEvent? ==> trace[k].run == trace[i].run)
  }

  /** The epoch lies before that of any later grant of the task to another run. */
  ghost predicate BeforeNextOwner(trace: seq<Event>, i: nat, epoch: nat)
    requires i < |trace|
  {
    forall k :: i < k < |trace| && IsGrant(trace[k], trace[i].task) && trace[k].run != trace[i].run ==>
          epoch < trace[k].epoch
  }

  /** The epoch was granted at event `i` or later. */
  ghost predicate GrantedSince(trace: seq<Event>, i: nat, epoch: nat)
    requires i < |trace|
  {
    exists k :: i <= k < |trace| && IsGrant(trace[k], trace[i].task) && trace[k].epoch == epoch
  }

  /** The granted run has owned the task without a break since, or its ownership has a row: of this run,
      granted then or later, before any other run was granted. */
  ghost predicate AccountedFor(a: Account, trace: seq<Event>, i: nat)
    requires i < |trace|
  {
    || (a.owner.Some? && a.owner.value.run == trace[i].run && Unbroken(trace, i)
        && GrantedSince(trace, i, a.owner.value.epoch))
    || exists row ::
         && row in a.ended && row.run == trace[i].run
         && GrantedSince(trace, i, row.epoch) && BeforeNextOwner(trace, i, row.epoch)
  }

  lemma SinceStays(trace: seq<Event>, f: Event, i: nat, epoch: nat)
    requires i < |trace| && GrantedSince(trace, i, epoch) && Fenced(trace + [f])
    ensures GrantedSince(trace + [f], i, epoch)
    ensures BeforeNextOwner(trace, i, epoch) ==> BeforeNextOwner(trace + [f], i, epoch)
    ensures IsGrant(f, trace[i].task) ==> epoch < f.epoch
  {
    var more := trace + [f];
    var k :| i <= k < |trace| && IsGrant(trace[k], trace[i].task) && trace[k].epoch == epoch;
    assert more[k] == trace[k] && more[|trace|] == f;
    assert InOrder(more[k], more[|trace|]);
  }

  lemma AccountStep(a: Account, trace: seq<Event>, f: Event, i: nat)
    requires i < |trace| && trace[i].GrantEvent? && Fenced(trace + [f]) && AccountedFor(a, trace, i)
    ensures AccountedFor(After(a, f, trace[i].task), trace + [f], i)
  {
    hide Fenced, InOrder, GrantedSince;
    var more, t := trace + [f], trace[i].task;
    var b := After(a, f, t);
    if row :|
         && row in a.ended && row.run == trace[i].run
         && GrantedSince(trace, i, row.epoch) && BeforeNextOwner(trace, i, row.epoch) {
      SinceStays(trace, f, i, row.epoch);
      assert row in b.ended;
    } else {
      var owner := a.owner.value;
      SinceStays(trace, f, i, owner.epoch);
      OwnerStep(a, trace, f, i);
    }
  }

  lemma OwnerStep(a: Account, trace: seq<Event>, f: Event, i: nat)
    requires i < |trace| && trace[i].GrantEvent? && Unbroken(trace, i)
    requires a.owner.Some? && a.owner.value.run == trace[i].run
    requires GrantedSince(trace + [f], i, a.owner.value.epoch)
             && (IsGrant(f, trace[i].task) ==> a.owner.value.epoch < f.epoch)
    ensures AccountedFor(After(a, f, trace[i].task), trace + [f], i)
  {
    var more, t := trace + [f], trace[i].task;
    var b := After(a, f, t);
    assert more[|trace|] == f;
    if f.task == t && (f.EndEvent? || (f.GrantEvent? && f.run != trace[i].run)) {
      var row := b.ended[|b.ended| - 1];
      assert row in b.ended && row.run == trace[i].run && row.epoch == a.owner.value.epoch;
      assert BeforeNextOwner(more, i, row.epoch);
    } else {
      assert Unbroken(more, i);
      assert f.GrantEvent? && f.task == t ==> IsGrant(more[|trace|], t);
    }
  }

  lemma {:induction false} EveryGrantIsAccounted(a: Account, trace: seq<Event>, i: nat)
    requires i < |trace| && trace[i].GrantEvent? && Fenced(trace)
    ensures AccountedFor(Replay(a, trace, trace[i].task), trace, i)
  {
    hide AccountedFor;
    var front, f, t := trace[..|trace| - 1], trace[|trace| - 1], trace[i].task;
    assert trace == front + [f];
    if i == |trace| - 1 {
      NewOwner(Replay(a, front, t), trace);
    } else {
      EveryGrantIsAccounted(a, front, i);
      AccountStep(Replay(a, front, t), front, f, i);
    }
  }

  lemma NewOwner(a: Account, trace: seq<Event>)
    requires trace != [] && trace[|trace| - 1].GrantEvent?
    ensures AccountedFor(After(a, trace[|trace| - 1], trace[|trace| - 1].task), trace, |trace| - 1)
  {
    assert IsGrant(trace[|trace| - 1], trace[|trace| - 1].task);
  }

  /** So no granted run is ever forgotten: in every state reached, the record shows each grant's run as
      the unbroken holder, or has the row of that very ownership. */
  lemma NoRunIsForgotten(w: World, acts: seq<Action>, i: nat)
    requires w.trace == [] && i < |Run(w, acts).trace| && Run(w, acts).trace[i].GrantEvent?
    ensures AccountedFor(Book(SlotOf(Run(w, acts).slots, Run(w, acts).trace[i].task)), Run(w, acts).trace, i)
  {
    hide Run, AccountedFor, Book;
    var trace := Run(w, acts).trace;
    EpochFencing(w, acts);
    BookFollowsTrace(w, acts, trace[i].task);
    assert trace[0..] == trace;
    EveryGrantIsAccounted(Book(SlotOf(w.slots, trace[i].task)), trace, i);
  }
}
