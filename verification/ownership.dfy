/** Task ownership: a lease on one task, fenced by an epoch that every grant raises
    (scripts/task-ownership.rb). Times are whole seconds. */
module Ownership {
  import opened Text

  datatype Mode = Exclusive | Shared | UnknownMode

  datatype Holder = Holder(run: string, worktree: Option<string>, mode: Mode, acquiredAt: int, expires: int)

  datatype Ending = Released | Reclaimed | Superseded

  /** A row of the record's history: a run whose ownership has ended. */
  datatype Past = Past(epoch: nat, run: string, acquiredAt: int, endedAt: int, how: Ending)

  datatype Register = Register(epoch: nat, holder: Option<Holder>, history: seq<Past>)

  /** ownership.yaml of one task: missing, present but malformed, or a record. */
  datatype Slot = NoRecord | Unreadable | Record(register: Register)

  type Slots = map<string, Slot>

  function SlotOf(slots: Slots, task: string): Slot {
    if task in slots then slots[task] else NoRecord
  }

  const EMPTY := Register(0, None, [])

  predicate Expired(h: Holder, at: int) { h.expires <= at }

  function LiveHolder(r: Register, at: int): Option<Holder> {
    if r.holder.Some? && !Expired(r.holder.value, at) then r.holder else None
  }

  predicate HeldBy(r: Register, run: string) { r.holder.Some? && r.holder.value.run == run }

  // ---- acquire ----

  datatype Ask = Ask(run: string, worktree: string, mode: Mode, lease: int, worktreeExclusive: bool)

  function StoredWorktree(w: string): Option<string> { if Blank(w) then None else Some(w) }

  /** The holder keeps this worktree to itself at `at`. */
  predicate Keeps(s: Slot, worktree: string, at: int) {
    && s.Record?
    && LiveHolder(s.register, at).Some?
    && s.register.holder.value.mode.Exclusive?
    && s.register.holder.value.worktree == Some(worktree)
  }

  /** No sibling keeps the worktree, and every sibling can be read to tell. */
  predicate WorktreeFree(slots: Slots, task: string, worktree: string, at: int) {
    Blank(worktree) || forall u :: u in slots && u != task ==> !slots[u].Unreadable? && !Keeps(slots[u], worktree, at)
  }

  predicate MayAcquire(slots: Slots, task: string, ask: Ask, at: int) {
    && !Blank(ask.run)
    && !ask.mode.UnknownMode?
    && var slot := SlotOf(slots, task);
    && !slot.Unreadable?
    && (slot.Record? && LiveHolder(slot.register, at).Some? ==> HeldBy(slot.register, ask.run))
    && (ask.worktreeExclusive && ask.mode.Exclusive? ==> WorktreeFree(slots, task, ask.worktree, at))
  }

  function Archived(r: Register, at: int, how: Ending): seq<Past>
    requires r.holder.Some?
  {
    r.history + [Past(r.epoch, r.holder.value.run, r.holder.value.acquiredAt, at, how)]
  }

  /** The register a grant leaves: the next epoch, the new holder, and a displaced run archived. */
  function Granted(s: Slot, ask: Ask, at: int): Register
    requires !s.Unreadable?
  {
    var was := if s.Record? then s.register else EMPTY;
    Register(was.epoch + 1,
             Some(Holder(ask.run, StoredWorktree(ask.worktree), ask.mode, at, at + ask.lease)),
             if was.holder.Some? && !HeldBy(was, ask.run) then Archived(was, at, Reclaimed) else was.history)
  }

  function Extended(r: Register, expires: int): Register
    requires r.holder.Some?
  {
    r.(holder := Some(r.holder.value.(expires := expires)))
  }

  // ---- renew and release ----

  predicate MayRenew(s: Slot, run: string) {
    !Blank(run) && s.Record? && HeldBy(s.register, run)
  }

  function AfterRelease(r: Register, run: string, at: int): Register {
    if r.holder.None? then r
    else r.(holder := None, history := Archived(r, at, if HeldBy(r, run) then Released else Superseded))
  }

  predicate MayRelease(s: Slot, run: string, force: bool) {
    !s.Unreadable? && (s.Record? && s.register.holder.Some? ==> force || HeldBy(s.register, run))
  }

  // ---- the fence ----

  /** AI_DEV_OFFICE_OWNERSHIP_EPOCH as the writer finds it. */
  datatype Credential = Unset | Malformed | Epoch(number: nat)

  datatype Lane = Ungoverned | OwnerLane(epoch: nat) | OrchestratorLane

  datatype Verdict = Allowed(lane: Lane) | Refused

  function LaneEpoch(c: Credential, orchestrator: bool): Option<nat> {
    if c.Epoch? && !orchestrator then Some(c.number) else None
  }

  /** A writer may write its status when the fence does not refuse. */
  function FenceVerdict(s: Slot, run: string, c: Credential, orchestrator: bool, at: int): Verdict {
    if c.Malformed? then Refused
    else match s
      case NoRecord => Allowed(Ungoverned)
      case Unreadable => Refused
      case Record(r) =>
        var mine := LaneEpoch(c, orchestrator);
        if mine.None? then
          if LiveHolder(r, at).None? || (!Blank(run) && HeldBy(r, run)) then Allowed(OrchestratorLane) else Refused
        else if mine.value == r.epoch && (r.holder.Some? && !Blank(run) ==> HeldBy(r, run))
            then Allowed(OwnerLane(r.epoch))
        else Refused
  }

  /** An owner that is still the holder renews its lease by writing. */
  function AfterFence(s: Slot, v: Verdict, lease: int, at: int): Slot {
    if v.Allowed? && v.lane.OwnerLane? && s.Record? && s.register.holder.Some?
    then Record(Extended(s.register, at + lease)) else s
  }

  // ---- the store ----

  datatype Answer = NotGranted | GrantedAs(how: GrantKind)

  datatype GrantKind = AcquiredNew | RenewedOwn | ReclaimedStale

  function KindOf(s: Slot, ask: Ask, at: int): GrantKind {
    if s.Record? && LiveHolder(s.register, at).Some? then RenewedOwn
    else if s.Record? && s.register.holder.Some? && !HeldBy(s.register, ask.run) then ReclaimedStale
    else AcquiredNew
  }

  datatype Clash = NoClash | HeldElsewhere(task: string, run: string) | CannotTell(task: string)

  /** The runs directory: one ownership record per task, changed under the task's lock. */
  class Store {
    var slots: Slots

    constructor ()
      ensures slots == map[]
    {
      slots := map[];
    }

    /** Scans the siblings until one keeps the worktree or cannot be read. */
    method WorktreeConflict(task: string, worktree: string, at: int) returns (c: Clash)
      ensures c.NoClash? <==> WorktreeFree(slots, task, worktree, at)
      ensures c.HeldElsewhere? ==>
                && c.task in slots && c.task != task && Keeps(slots[c.task], worktree, at)
                && slots[c.task].register.holder.value.run == c.run
      ensures c.CannotTell? ==> c.task in slots && c.task != task && slots[c.task].Unreadable?
    {
      hide Blank;
      if Blank(worktree) {
        return NoClash;
      }
      var todo := slots.Keys;
      while todo != {}
        invariant todo <= slots.Keys
        invariant forall u :: u in slots && u !in todo && u != task ==>
                    !slots[u].Unreadable? && !Keeps(slots[u], worktree, at)
      {
        var u :| u in todo;
        todo := todo - {u};
        if u == task || slots[u].NoRecord? {
          continue;
        }
        if slots[u].Unreadable? {
          return CannotTell(u);
        }
        var holder := LiveHolder(slots[u].register, at);
        if holder.Some? && holder.value.mode.Exclusive? && holder.value.worktree == Some(worktree) {
          return HeldElsewhere(u, holder.value.run);
        }
      }
      return NoClash;
    }

    method Acquire(task: string, ask: Ask, at: int) returns (answer: Answer)
      modifies this
      ensures answer.GrantedAs? <==> MayAcquire(old(slots), task, ask, at)
      ensures answer.NotGranted? ==> slots == old(slots)
      ensures answer.GrantedAs? ==>
                && slots == old(slots)[task := Record(Granted(SlotOf(old(slots), task), ask, at))]
                && answer.how == KindOf(SlotOf(old(slots), task), ask, at)
    {
      hide Blank, WorktreeFree;
      if Blank(ask.run) || ask.mode.UnknownMode? {
        return NotGranted;
      }
      var slot := SlotOf(slots, task);
      if slot.Unreadable? {
        return NotGranted;
      }
      var record := if slot.Record? then slot.register else EMPTY;
      var holder := LiveHolder(record, at);
      if holder.Some? && holder.value.run != ask.run {
        return NotGranted;
      }
      if ask.worktreeExclusive && ask.mode.Exclusive? {
        var clash := WorktreeConflict(task, ask.worktree, at);
        if !clash.NoClash? {
          return NotGranted;
        }
      }
      var kind := if holder.Some? then RenewedOwn else AcquiredNew;
      if holder.None? && record.holder.Some? && record.holder.value.run != ask.run {
        record := record.(history := Archived(record, at, Reclaimed));
        kind := ReclaimedStale;
      }
      record := record.(epoch := record.epoch + 1);
      record := record.(holder := Some(Holder(ask.run, StoredWorktree(ask.worktree), ask.mode, at, at + ask.lease)));
      slots := slots[task := Record(record)];
      return GrantedAs(kind);
    }

    method Renew(task: string, run: string, lease: int, at: int) returns (ok: bool)
      modifies this
      ensures ok <==> MayRenew(SlotOf(old(slots), task), run)
      ensures slots == if ok then old(slots)[task := Record(Extended(SlotOf(old(slots), task).register, at + lease))]
              else old(slots)
    {
      hide Blank;
      if Blank(run) {
        return false;
      }
      var slot := SlotOf(slots, task);
      if !slot.Record? || !HeldBy(slot.register, run) {
        return false;
      }
      slots := slots[task := Record(Extended(slot.register, at + lease))];
      return true;
    }

    method Release(task: string, run: string, force: bool, at: int) returns (ok: bool)
      modifies this
      ensures ok <==> MayRelease(SlotOf(old(slots), task), run, force)
      ensures slots == if ok && SlotOf(old(slots), task).Record?
                       then old(slots)[task := Record(AfterRelease(SlotOf(old(slots), task).register, run, at))]
                         else old(slots)
    {
      var slot := SlotOf(slots, task);
      if slot.Unreadable? {
        return false;
      }
      if slot.NoRecord? {
        return true;
      }
      var record := slot.register;
      if record.holder.None? {
        assert slots == slots[task := slot];
        return true;
      }
      if !force && !HeldBy(record, run) {
        return false;
      }
      var how := if HeldBy(record, run) then Released else Superseded;
      record := record.(history := Archived(record, at, how));
      record := record.(holder := None);
      slots := slots[task := Record(record)];
      return true;
    }

    /** Runs inside a status writer's own critical section; the write follows when it is allowed. */
    method Fence(task: string, run: string, c: Credential, orchestrator: bool, lease: int, at: int) returns (v: Verdict)
      modifies this
      ensures v == FenceVerdict(SlotOf(old(slots), task), run, c, orchestrator, at)
      ensures SlotOf(slots, task) == AfterFence(SlotOf(old(slots), task), v, lease, at)
      ensures forall u :: u != task ==> SlotOf(slots, u) == SlotOf(old(slots), u)
    {
      hide Blank;
      if c.Malformed? {
        return Refused;
      }
      var slot := SlotOf(slots, task);
      match slot
      case NoRecord => return Allowed(Ungoverned);
      case Unreadable => return Refused;
      case Record(record) =>
        var mine := LaneEpoch(c, orchestrator);
        if mine.None? {
          var live := LiveHolder(record, at);
          if live.None? {
            return Allowed(OrchestratorLane);
          }
          if !Blank(run) && live.value.run == run {
            return Allowed(OrchestratorLane);
          }
          return Refused;
        }
        if record.epoch > mine.value || record.epoch < mine.value {
          return Refused;
        }
        if record.holder.Some? && !Blank(run) && record.holder.value.run != run {
          return Refused;
        }
        if record.holder.Some? {
          slots := slots[task := Record(Extended(record, at + lease))];
        }
        return Allowed(OwnerLane(record.epoch));
    }
  }
}
