/** What worker saves that are not grouped with their guards can do to a termination. */
module Races {
  import opened Prelude
  import opened Protocol
  import opened JointInvariant

  // ---- Why the groups have to be uninterrupted ----

  /** A save that acts on a status read before the session was terminated. */
  predicate StaleSave(phase: Phase, action: Action) {
    || (action == SaveFailSession && phase.FailRead? && phase.seen != Terminated)
    || (action == SaveStart && phase.StartRead? && phase.seen != Terminated)
    || (action == SaveFinish && phase.FinishRead? && phase.seen != Terminated && phase.final != Terminated)
  }

  /** A worker access un-terminates a session exactly when it is a stale save. */
  lemma {:induction false} TerminationLostIffStale(c: Cell, id: nat, action: Action)
    requires c.row.Some? && c.row.value.status == Terminated && id in c.tasks
    ensures var d := WorkerStep(c, id, action);
            d.row.Some? && (d.row.value.status != Terminated <==> StaleSave(c.tasks[id].phase, action))
  {
  }

  /** The same access run as part of its group never does. */
  lemma GroupsKeepTermination(c: Cell, g: Group)
    requires Joint(c) && c.row.Some? && c.row.value.status == Terminated
    requires g.Single? ==> Groupable(g.step)
    ensures ObserveRow(GroupCell(c, g).row) in {Live(Terminated), Deleted}
  {
    GroupMovesStatus(c, g);
  }

  function CellAfter(c: Cell, steps: seq<Step>): Cell {
    Fold(StepCell, c, steps)
  }

  lemma {:induction false} RunOnOneSession(c: Cell, steps: seq<Step>)
    requires forall step | step in steps :: !step.Create? && step.sid == 0
    ensures RunSteps(map[0 := c], steps) == map[0 := CellAfter(c, steps)]
    decreases |steps|
  {
    if steps != [] {
      assert steps[0] in steps;
      assert Apply(map[0 := c], steps[0]) == map[0 := StepCell(c, steps[0])];
      RunOnOneSession(StepCell(c, steps[0]), steps[1..]);
    }
  }

  /**
   A worker fetches the provision task, hands out the turn, fetches that, and
   has read the status the saves depend on.
   */
  const UP_TO_THE_READ: seq<Step> :=
    [Worker(0, 0, Fetch), Worker(0, 0, ProvisionDone), Worker(0, 1, Fetch), Worker(0, 1, ReadForStart)]

  function ReadDone(name: string): Cell {
    ReadingForStart(Fetching(HandingOut(Fetching(NewCell(0, name), 0), 0), 1), 1)
  }

  lemma {:induction false} ReachesTheRead(name: string)
    ensures CellAfter(NewCell(0, name), UP_TO_THE_READ) == ReadDone(name)
    ensures ReadDone(name).row.Some? && ReadDone(name).row.value.status == Pending
    ensures 1 in ReadDone(name).tasks && ReadDone(name).tasks[1].phase == StartRead(Pending)
  {
    var c := NewCell(0, name);
    FoldThree(StepCell, c, UP_TO_THE_READ[..3]);
    FoldAppend(StepCell, c, UP_TO_THE_READ[..3], [Worker(0, 1, ReadForStart)]);
    FoldOne(StepCell, HandedOut(name), Worker(0, 1, ReadForStart));
    assert UP_TO_THE_READ == UP_TO_THE_READ[..3] + [Worker(0, 1, ReadForStart)];
  }

  function HandedOut(name: string): Cell {
    Fetching(HandingOut(Fetching(NewCell(0, name), 0), 0), 1)
  }

  function RacingRun(name: string): seq<Step> {
    [Create(0, 0, name, 1)] + UP_TO_THE_READ + [Terminate(0), Worker(0, 1, SaveStart)]
  }

  lemma {:induction false} RaceUpToTheRead(name: string)
    requires name != ""
    ensures RunSteps(map[], [Create(0, 0, name, 1)] + UP_TO_THE_READ) == map[0 := ReadDone(name)]
  {
    var create, c := Create(0, 0, name, 1), NewCell(0, name);
    assert ActiveSessions(map[], 0) == {};
    assert Apply(map[], create) == map[0 := c];
    FoldOne(Apply, map[], create);
    FoldAppend(Apply, map[], [create], UP_TO_THE_READ);
    RunOnOneSession(c, UP_TO_THE_READ);
    ReachesTheRead(name);
  }

  /** A reachable run in which a committed terminate is overwritten and the session shows "running" again. */
  lemma {:induction false} TerminateCanBeOverwritten(name: string)
    requires name != ""
    ensures Observe(RunSteps(map[], RacingRun(name)[..6]), 0) == Live(Terminated)
    ensures Observe(RunSteps(map[], RacingRun(name)), 0) == Live(Running)
  {
    var start, save := [Create(0, 0, name, 1)] + UP_TO_THE_READ, Worker(0, 1, SaveStart);
    RaceUpToTheRead(name);
    OneStepMore(map[], start, Terminate(0));
    OneStepMore(map[], start + [Terminate(0)], save);
    SaveUndoesTerminate(name);
    var r := RacingRun(name);
    assert r[..6] == start + [Terminate(0)] && r == start + [Terminate(0)] + [save];
  }

  lemma {:induction false} SaveUndoesTerminate(name: string)
    ensures var s := Apply(map[0 := ReadDone(name)], Terminate(0));
            Observe(s, 0) == Live(Terminated) && Observe(Apply(s, Worker(0, 1, SaveStart)), 0) == Live(Running)
  {
    ReachesTheRead(name);
  }

  lemma {:induction false} OneStepMore(s: State, steps: seq<Step>, step: Step)
    ensures RunSteps(s, steps + [step]) == Apply(RunSteps(s, steps), step)
  {
    FoldAppend(Apply, s, steps, [step]);
    FoldOne(Apply, RunSteps(s, steps), step);
  }
}
