/** The status writers behind the fence: every writer asks the ownership record inside the critical
    section in which it then changes the task (the fence! call of each script). */
module FencedTask {
  import opened Text
  import O = Ownership
  import Runs = OwnershipRuns
  import T = TaskRuns

  /** The ownership store, and the task `name` that this is about. */
  datatype World = World(store: Runs.World, task: T.World)

  datatype Step =
    | Own(action: Runs.Action)
    | Fenced(step: T.Step, run: string, credential: O.Credential, lease: int, at: int)

  /** The reconcilers act for no dispatch and present no epoch even when they inherit one. */
  predicate Orchestrates(st: T.Step) { st.DecisionStep? || st.UnblockStep? }

  function WriteOf(name: string, st: Step): Runs.Action
    requires st.Fenced?
  {
    Runs.WriteStep(name, st.run, st.credential, Orchestrates(st.step), st.lease, st.at)
  }

  predicate Passes(name: string, w: World, st: Step) {
    st.Fenced? && Runs.VerdictOf(w.store, WriteOf(name, st)).Allowed?
  }

  ghost function Next(name: string, w: World, st: Step): World {
    match st
    case Own(action) => w.(store := Runs.Next(w.store, action))
    case Fenced(step, _, _, _, _) =>
      if Passes(name, w, st) then World(Runs.Next(w.store, WriteOf(name, st)), T.Next(w.task, step)) else w
  }

  ghost function Run(name: string, w: World, steps: seq<Step>): World
    decreases |steps|
  {
    if steps == [] then w else Run(name, Next(name, w, steps[0]), steps[1..])
  }

  /** Ownership steps are not status writes of this task; its writes all go through its writers. */
  predicate StepOk(name: string, st: Step) {
    match st
    case Own(action) => action.WriteStep? ==> action.task != name
    case Fenced(step, _, _, _, _) => T.StepAllowed(step)
  }

  function ActionOf(name: string, st: Step): Runs.Action {
    if st.Own? then st.action else WriteOf(name, st)
  }

  function Actions(name: string, steps: seq<Step>): seq<Runs.Action> {
    if steps == [] then [] else [ActionOf(name, steps[0])] + Actions(name, steps[1..])
  }

  /** The task steps that got past the fence. */
  ghost function Landed(name: string, w: World, steps: seq<Step>): seq<T.Step>
    decreases |steps|
  {
    if steps == [] then []
    else (if Passes(name, w, steps[0]) then [steps[0].step] else []) + Landed(name, Next(name, w, steps[0]), steps[1..])
  }

  lemma RefusedWriteIsNothing(name: string, w: World, st: Step)
    requires st.Fenced? && !Passes(name, w, st)
    ensures Runs.Next(w.store, WriteOf(name, st)) == w.store
  {
    hide O.FenceVerdict;
  }

  /** A fenced run is an ownership run beside a task run of the steps that landed. */
  lemma {:induction false} RunsSplit(name: string, w: World, steps: seq<Step>)
    ensures Run(name, w, steps) ==
              World(Runs.Run(w.store, Actions(name, steps)), T.Run(w.task, Landed(name, w, steps)))
    decreases |steps|
  {
    hide Runs.Next, T.Next, Passes;
    if steps != [] {
      var st, acts, v := steps[0], Actions(name, steps), Next(name, w, steps[0]);
      RunsSplit(name, v, steps[1..]);
      assert acts[0] == ActionOf(name, st) && acts[1..] == Actions(name, steps[1..]);
      var landed := Landed(name, w, steps);
      if st.Fenced? && !Passes(name, w, st) {
        RefusedWriteIsNothing(name, w, st);
      }
      PassedIsFenced(name, w, st);
      if Passes(name, w, st) {
        assert landed[0] == st.step && landed[1..] == Landed(name, v, steps[1..]);
      } else {
        assert landed == Landed(name, v, steps[1..]);
      }
    }
  }

  lemma {:induction false} LandedAreAllowed(name: string, w: World, steps: seq<Step>)
    requires forall st :: st in steps ==> StepOk(name, st)
    ensures forall st :: st in Landed(name, w, steps) ==> T.StepAllowed(st)
    decreases |steps|
  {
    hide Next, Passes, T.StepAllowed;
    if steps != [] {
      PassedIsFenced(name, w, steps[0]);
      assert StepOk(name, steps[0]);
      LandedAreAllowed(name, Next(name, w, steps[0]), steps[1..]);
    }
  }

  lemma PassedIsFenced(name: string, w: World, st: Step)
    ensures Passes(name, w, st) ==> st.Fenced?
  {
  }

  /** Whatever dispatches, retries and operators do, behind the fence the task stays safe. */
  lemma FencedTaskStaysSound(name: string, w: World, steps: seq<Step>)
    requires T.Fresh(w.task) && forall st :: st in steps ==> StepOk(name, st)
    ensures T.Sound(Run(name, w, steps).task)
  {
    hide T.Sound, T.Run, T.Next, T.StepAllowed, Run, Landed, StepOk;
    RunsSplit(name, w, steps);
    LandedAreAllowed(name, w, steps);
    T.FreshIsSound(w.task);
    T.RunsStaySound(w.task, Landed(name, w, steps));
  }

  /** A stale owner cannot change a newer owner's status: once some run was granted a larger epoch,
      a writer that presents a smaller one leaves the task as it is, released lease or not. */
  lemma StaleOwnerChangesNothing(name: string, w: World, steps: seq<Step>, st: Step, granted: Runs.Event)
    requires w.store.trace == []
    requires granted in Run(name, w, steps).store.trace && granted.GrantEvent? && granted.task == name
    requires st.Fenced? && O.LaneEpoch(st.credential, Orchestrates(st.step)).Some?
    requires O.LaneEpoch(st.credential, Orchestrates(st.step)).value < granted.epoch
    ensures Next(name, Run(name, w, steps), st) == Run(name, w, steps)
  {
    hide Run, Runs.Run, Landed, T.Run, T.Next, Runs.Next;
    RunsSplit(name, w, steps);
    Runs.FencingRun(w.store, Actions(name, steps));
    var v := Run(name, w, steps);
    assert Runs.NotAhead(v.store.slots, granted);
    assert !Passes(name, v, st);
  }
}
