/** The other half of ownership: who asks for a task that is free gets it, a lapsed lease is no obstacle,
    the latest owner can always write, and holders can always renew and release
    (scripts/task-ownership.rb). */
module OwnershipLiveness {
  import opened Text
  import opened Ownership
  import opened OwnershipRuns

  // ---- acquire ----

  predicate Asking(ask: Ask) { !Blank(ask.run) && (ask.mode.Exclusive? || ask.mode.Shared?) }

  /** Another run holds the task on a lease that ends after `at`. */
  predicate Taken(s: Slot, run: string, at: int) {
    s.Record? && s.register.holder.Some? && s.register.holder.value.run != run && at < s.register.holder.value.expires
  }

  /** The slot keeps others off the worktree: it cannot be read, or its exclusive holder there has time left. */
  predicate InTheWay(s: Slot, worktree: string, at: int) {
    || s.Unreadable?
    || (s.Record? && s.register.holder.Some? && s.register.holder.value.mode.Exclusive?
        && s.register.holder.value.worktree == Some(worktree) && at < s.register.holder.value.expires)
  }

  predicate Clashes(slots: Slots, t: string, ask: Ask, at: int) {
    && ask.worktreeExclusive && ask.mode.Exclusive? && !Blank(ask.worktree)
    && exists u :: u in slots && u != t && InTheWay(slots[u], ask.worktree, at)
  }

  predicate Free(slots: Slots, t: string, ask: Ask, at: int) {
    !SlotOf(slots, t).Unreadable? && !Taken(SlotOf(slots, t), ask.run, at) && !Clashes(slots, t, ask, at)
  }

  lemma AcquireAllowed(slots: Slots, t: string, ask: Ask, at: int)
    ensures MayAcquire(slots, t, ask, at) <==> Asking(ask) && Free(slots, t, ask, at)
  {
    hide Blank;
    forall u | u in slots && u != t
      ensures InTheWay(slots[u], ask.worktree, at) <==> slots[u].Unreadable? || Keeps(slots[u], ask.worktree, at) {}
  }

  function HistoryAt(slots: Slots, t: string): seq<Past> {
    if SlotOf(slots, t).Record? then SlotOf(slots, t).register.history else []
  }

  function HolderAt(slots: Slots, t: string): Option<Holder> {
    if SlotOf(slots, t).Record? then SlotOf(slots, t).register.holder else None
  }

  /** Whoever asks for a free task gets it, under the next epoch and for the lease asked; the run it
      displaces gets its row. Anybody else changes nothing. */
  lemma AcquireExactly(w: World, t: string, ask: Ask, at: int)
    ensures var v, was := Next(w, AcquireStep(t, ask, at)), HolderAt(w.slots, t);
            if Asking(ask) && Free(w.slots, t, ask, at) then
              && v.trace == w.trace + [GrantEvent(t, ask.run, EpochAt(w.slots, t) + 1)]
              && EpochAt(v.slots, t) == EpochAt(w.slots, t) + 1
              && HolderAt(v.slots, t) == Some(Holder(ask.run, if Blank(ask.worktree) then None else Some(ask.worktree),
                                                     ask.mode, at, at + ask.lease))
              && HistoryAt(v.slots, t) ==
                 HistoryAt(w.slots, t) +
                 (if was.Some? && was.value.run != ask.run
                  then [Past(EpochAt(w.slots, t), was.value.run, was.value.acquiredAt, at, Reclaimed)] else [])
              && (forall u :: u != t ==> SlotOf(v.slots, u) == SlotOf(w.slots, u))
            else v == w
  {
    hide Blank, MayAcquire, Clashes;
    AcquireAllowed(w.slots, t, ask, at);
  }

  /** What the answer says: a stale lease was reclaimed exactly when a run was displaced, and a lease
      renewed exactly when the asking run's own was running. */
  lemma KindTells(slots: Slots, t: string, ask: Ask, at: int)
    requires MayAcquire(slots, t, ask, at)
    ensures KindOf(SlotOf(slots, t), ask, at).ReclaimedStale? <==>
              Granted(SlotOf(slots, t), ask, at).history != HistoryAt(slots, t)
    ensures KindOf(SlotOf(slots, t), ask, at).RenewedOwn? <==>
              HolderAt(slots, t).Some? && at < HolderAt(slots, t).value.expires
  {
    hide Blank, WorktreeFree;
  }

  lemma TwoSteps(w: World, a: Action, b: Action)
    ensures Run(w, [a, b]) == Next(Next(w, a), b)
  {
    hide Next;
    assert [a, b][1..] == [b] && [b][1..] == [];
    assert Run(Next(Next(w, a), b), []) == Next(Next(w, a), b);
    assert Run(Next(w, a), [b]) == Next(Next(w, a), b);
  }

  /** A dead owner is replaced: from every world in which the task can be read, once its lease has run
      out, the next run that asks and meets no clash of worktrees owns it. */
  lemma LapsedLeaseIsNoObstacle(w: World, t: string, ask: Ask, seconds: nat)
    requires Asking(ask) && !SlotOf(w.slots, t).Unreadable?
    requires HolderAt(w.slots, t).Some? ==> HolderAt(w.slots, t).value.expires <= w.clock + seconds
    requires !Clashes(w.slots, t, ask, w.clock + seconds)
    ensures var v := Run(w, [Tick(seconds), AcquireStep(t, ask, w.clock + seconds)]);
            && v.trace == w.trace + [GrantEvent(t, ask.run, EpochAt(w.slots, t) + 1)]
            && HolderAt(v.slots, t).Some? && HolderAt(v.slots, t).value.run == ask.run
            && (HolderAt(w.slots, t).Some? && HolderAt(w.slots, t).value.run != ask.run ==>
                  && |HistoryAt(v.slots, t)| == |HistoryAt(w.slots, t)| + 1
                  && HistoryAt(v.slots, t)[|HistoryAt(w.slots, t)|].run == HolderAt(w.slots, t).value.run
                  && HistoryAt(v.slots, t)[|HistoryAt(w.slots, t)|].how == Reclaimed)
  {
    hide Run, Blank, Clashes;
    var u := w.(clock := w.clock + seconds);
    TwoSteps(w, Tick(seconds), AcquireStep(t, ask, w.clock + seconds));
    assert Next(w, Tick(seconds)) == u;
    AcquireExactly(u, t, ask, w.clock + seconds);
  }

  lemma {:induction false} AllLeasesEnd(slots: Slots, names: set<string>) returns (end: int)
    ensures forall u :: u in names && HolderAt(slots, u).Some? ==> HolderAt(slots, u).value.expires <= end
    decreases names
  {
    if names == {} {
      end := 0;
    } else {
      var u := AnElement(names);
      end := AllLeasesEnd(slots, names - {u});
      if HolderAt(slots, u).Some? && HolderAt(slots, u).value.expires > end {
        end := HolderAt(slots, u).value.expires;
      }
    }
  }

  /** Nothing is held for ever: from every store whose records can be read, after some time any run gets
      any task, on any worktree. */
  lemma AnyTaskCanBeTaken(w: World, t: string, ask: Ask) returns (seconds: nat)
    requires Asking(ask) && forall u :: !SlotOf(w.slots, u).Unreadable?
    ensures Run(w, [Tick(seconds), AcquireStep(t, ask, w.clock + seconds)]).trace ==
            w.trace + [GrantEvent(t, ask.run, EpochAt(w.slots, t) + 1)]
  {
    hide Run, Blank;
    var end := AllLeasesEnd(w.slots, w.slots.Keys + {t});
    seconds := if end > w.clock then end - w.clock else 0;
    forall u | u in w.slots ensures !InTheWay(w.slots[u], ask.worktree, w.clock + seconds) {
      assert SlotOf(w.slots, u) == w.slots[u];
      assert HolderAt(w.slots, u).Some? ==> HolderAt(w.slots, u).value.expires <= w.clock + seconds;
    }
    LapsedLeaseIsNoObstacle(w, t, ask, seconds);
  }

  // ---- renew and release ----

  /** A run renews exactly the lease it is on record for, whether it has lapsed or not. */
  lemma RenewExactly(w: World, t: string, run: string, lease: int, at: int)
    ensures var v, was := Next(w, RenewStep(t, run, lease, at)), HolderAt(w.slots, t);
            if !Blank(run) && was.Some? && was.value.run == run then
              && HolderAt(v.slots, t) == Some(was.value.(expires := at + lease))
              && EpochAt(v.slots, t) == EpochAt(w.slots, t) && HistoryAt(v.slots, t) == HistoryAt(w.slots, t)
              && v.trace == w.trace && forall u :: u != t ==> SlotOf(v.slots, u) == SlotOf(w.slots, u)
            else v == w
  {
    hide Blank;
  }

  /** A run gives up exactly what it holds, and force whatever is held; the ownership that ends is archived
      with how it ended. */
  lemma ReleaseExactly(w: World, t: string, run: string, force: bool, at: int)
    ensures var v, was := Next(w, ReleaseStep(t, run, force, at)), HolderAt(w.slots, t);
            if was.Some? && (force || was.value.run == run) then
              var how := if was.value.run == run then Released else Superseded;
              && HolderAt(v.slots, t).None? && EpochAt(v.slots, t) == EpochAt(w.slots, t)
              && HistoryAt(v.slots, t) ==
                 HistoryAt(w.slots, t) + [Past(EpochAt(w.slots, t), was.value.run, was.value.acquiredAt, at, how)]
              && v.trace == w.trace + [EndEvent(t, was.value.run, how)]
              && forall u :: u != t ==> SlotOf(v.slots, u) == SlotOf(w.slots, u)
            else v == w
  {
  }

  // ---- the fence ----

  /** The latest grant of a task that the trace tells. */
  function LatestGrant(trace: seq<Event>, t: string): Option<Owner> {
    if trace == [] then None
    else
      var e := trace[|trace| - 1];
      if e.GrantEvent? && e.task == t then Some(Owner(e.run, e.epoch)) else LatestGrant(trace[..|trace| - 1], t)
  }

  /** The record knows the latest grant: its epoch, and no other run as the holder. */
  predicate OnRecord(w: World, t: string) {
    LatestGrant(w.trace, t).Some? ==>
      && SlotOf(w.slots, t).Record? && EpochAt(w.slots, t) == LatestGrant(w.trace, t).value.epoch
      && (HolderAt(w.slots, t).Some? ==> HolderAt(w.slots, t).value.run == LatestGrant(w.trace, t).value.run)
  }

  lemma OnRecordStep(w: World, a: Action, t: string)
    requires OnRecord(w, t)
    ensures OnRecord(Next(w, a), t)
  {
    hide Blank, WorktreeFree, MayAcquire;
    var trace := Next(w, a).trace;
    if trace != w.trace {
      assert trace[..|trace| - 1] == w.trace;
    }
  }

  lemma {:induction false} OnRecordRun(w: World, acts: seq<Action>, t: string)
    requires OnRecord(w, t)
    ensures OnRecord(Run(w, acts), t)
    decreases |acts|
  {
    hide Next, OnRecord;
    if acts != [] {
      OnRecordStep(w, acts[0], t);
      OnRecordRun(Next(w, acts[0]), acts[1..], t);
    }
  }

  /** The fence never shuts out the owner: over every run, the run of the latest grant can write under its
      epoch, at any time, lapsed or released or not. */
  lemma LatestOwnerCanWrite(w: World, acts: seq<Action>, t: string, lease: int, at: int)
    requires w.trace == [] && LatestGrant(Run(w, acts).trace, t).Some?
    ensures var v := Run(w, acts);
            var owner := LatestGrant(v.trace, t).value;
            Next(v, WriteStep(t, owner.run, Epoch(owner.epoch), false, lease, at)).trace ==
              v.trace + [WriteEvent(t, owner.run, OwnerLane(owner.epoch))]
  {
    hide Run, Blank;
    OnRecordRun(w, acts, t);
  }

  /** Exactly which writes land: the owner's lane for who presents the current epoch, unless under another
      run's name; without an epoch any task that nobody else holds; and every task never owned. */
  lemma WriteExactly(w: World, t: string, run: string, c: Credential, orchestrator: bool, lease: int, at: int)
    ensures var v, s := Next(w, WriteStep(t, run, c, orchestrator, lease, at)), SlotOf(w.slots, t);
            var lands :=
              && !c.Malformed? && !s.Unreadable?
              && (if s.NoRecord? then true
                  else if c.Epoch? && !orchestrator then
                    c.number == EpochAt(w.slots, t)
                    && (HolderAt(w.slots, t).Some? && HolderAt(w.slots, t).value.run != run ==> Blank(run))
                  else !Taken(s, run, at) && (Blank(run) ==> HolderAt(w.slots, t).None? || Lapsed(w.slots, t, at)));
            && (v.trace != w.trace <==> lands)
            && (lands && s.Record? && c.Epoch? && !orchestrator && HolderAt(w.slots, t).Some? ==>
                  HolderAt(v.slots, t) == Some(HolderAt(w.slots, t).value.(expires := at + lease)))
            && (!(lands && s.Record? && c.Epoch? && !orchestrator && HolderAt(w.slots, t).Some?) ==>
                  SlotOf(v.slots, t) == s)
            && EpochAt(v.slots, t) == EpochAt(w.slots, t)
            && forall u :: u != t ==> SlotOf(v.slots, u) == SlotOf(w.slots, u)
  {
    hide Blank;
  }

  predicate Lapsed(slots: Slots, t: string, at: int) {
    HolderAt(slots, t).Some? && HolderAt(slots, t).value.expires <= at
  }
}
