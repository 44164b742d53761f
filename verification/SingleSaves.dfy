/**
 Concurrent prompts and the session quota with every refresh and every save as
 a step of its own.
 */
module SingleSaves {
  import opened Prelude
  import opened Protocol
  import opened JointInvariant
  import opened Races

  // ---- One driver per session ----

  /** A task that may still save the session's status. */
  predicate Driving(t: Task) {
    !t.phase.FinishSaved? && !t.phase.FailSaved?
  }

  /** A finishing save ends the turn. */
  predicate EndsTurn(phase: Phase) {
    phase.FinishRead? ==> phase.final in {Completed, Failed}
  }

  /** At most one task may still save the status, and none once it is completed or failed. */
  ghost predicate OneDriver(c: Cell) {
    && (forall id | id in c.tasks :: id < c.next && EndsTurn(c.tasks[id].phase))
    && (forall i, j | i in c.tasks && j in c.tasks && Driving(c.tasks[i]) && Driving(c.tasks[j]) :: i == j)
    && (c.row.Some? && c.row.value.status in {Completed, Failed} ==> forall id | id in c.tasks :: !Driving(c.tasks[id]))
  }

  lemma {:induction false} RequestsKeepDriver(c: Cell)
    requires OneDriver(c)
    ensures OneDriver(PromptCell(c)) && OneDriver(TerminateCell(c)) && OneDriver(DeleteCell(c))
  {
  }

  lemma {:induction false} ReadsKeepDriver(c: Cell, id: nat)
    requires OneDriver(c) && id in c.tasks
    ensures OneDriver(Fetching(c, id)) && OneDriver(ReadingForFail(c, id)) && OneDriver(ReadingForStart(c, id))
  {
  }

  lemma {:induction false} ReadForFinishKeepsDriver(c: Cell, id: nat, result: CommandResult)
    requires OneDriver(c) && id in c.tasks
    ensures OneDriver(ReadingForFinish(c, id, result))
  {
  }

  lemma {:induction false} HandingOutKeepsDriver(c: Cell, id: nat)
    requires OneDriver(c) && id in c.tasks
    ensures OneDriver(HandingOut(c, id))
  {
  }

  lemma {:induction false} SavesKeepDriver(c: Cell, id: nat)
    requires OneDriver(c) && id in c.tasks
    ensures OneDriver(SavingFailSession(c, id)) && OneDriver(SavingStart(c, id))
  {
  }

  lemma {:induction false} SaveFinishKeepsDriver(c: Cell, id: nat)
    requires OneDriver(c) && id in c.tasks
    ensures OneDriver(SavingFinish(c, id))
  {
  }

  lemma {:induction false} TurnSavesKeepDriver(c: Cell, id: nat)
    requires OneDriver(c) && id in c.tasks
    ensures OneDriver(SavingFailTurn(c, id)) && OneDriver(SavingStartTurn(c, id)) && OneDriver(SavingFinishTurn(c, id))
    ensures OneDriver(Done(c, id))
  {
  }

  lemma {:induction false} WorkerKeepsDriver(c: Cell, id: nat, action: Action)
    requires OneDriver(c)
    ensures OneDriver(WorkerStep(c, id, action))
  {
    if id in c.tasks {
      match action
      case Fetch | ReadForFail | ReadForStart => ReadsKeepDriver(c, id);
      case ReadForFinish(result) => ReadForFinishKeepsDriver(c, id, result);
      case ProvisionDone => HandingOutKeepsDriver(c, id);
      case SaveFailSession | SaveStart => SavesKeepDriver(c, id);
      case SaveFinish => SaveFinishKeepsDriver(c, id);
      case SaveFailTurn | SaveStartTurn | SaveFinishTurn | Crash => TurnSavesKeepDriver(c, id);
    }
  }

  lemma {:induction false} CellKeepsDriver(c: Cell, step: Step)
    requires OneDriver(c)
    ensures OneDriver(StepCell(c, step))
  {
    RequestsKeepDriver(c);
    if step.Worker? {
      WorkerKeepsDriver(c, step.id, step.action);
    }
  }

  ghost predicate OneDriverEach(s: State) {
    forall sid | sid in s :: OneDriver(s[sid])
  }

  lemma {:induction false} StepKeepsDriver(s: State, step: Step)
    requires OneDriverEach(s)
    ensures OneDriverEach(Apply(s, step))
  {
    if step.sid in s {
      CellKeepsDriver(s[step.sid], step);
    }
  }

  /**
   In every run of single steps at most one task of a session may still save its
   status, none once it is completed or failed.
   */
  lemma {:induction false} RunKeepsDriver(s: State, steps: seq<Step>)
    requires OneDriverEach(s)
    ensures OneDriverEach(RunSteps(s, steps))
    decreases |steps|
  {
    if steps != [] {
      StepKeepsDriver(s, steps[0]);
      RunKeepsDriver(Apply(s, steps[0]), steps[1..]);
    }
  }

  // ---- Concurrent prompts ----

  /** The step neither ends the session nor is the save that finishes its turn. */
  predicate LeavesTurnOpen(step: Step, sid: Sid) {
    step.sid == sid ==> !step.Terminate? && !step.Delete? && !(step.Worker? && step.action == SaveFinish)
  }

  predicate Busy(c: Cell) {
    c.row.Some? && c.row.value.status in {Pending, Running, Failed}
  }

  lemma {:induction false} BusyRejectsPrompts(c: Cell, step: Step)
    requires Busy(c) && LeavesTurnOpen(step, step.sid)
    ensures Busy(StepCell(c, step)) && StepCell(c, step).created == c.created
  {
  }

  predicate IsCompleted(c: Cell) {
    c.row.Some? && c.row.value.status == Completed
  }

  lemma {:induction false} CompletedAcceptsOne(c: Cell, step: Step)
    requires OneDriver(c) && IsCompleted(c) && LeavesTurnOpen(step, step.sid)
    ensures var d := StepCell(c, step);
            if step.Prompt? then Busy(d) && d.created == c.created + 1
            else IsCompleted(d) && d.created == c.created
  {
  }

  lemma {:induction false} BusyStaysBusy(s: State, steps: seq<Step>, sid: Sid)
    requires sid in s && Busy(s[sid]) && forall step | step in steps :: LeavesTurnOpen(step, sid)
    ensures sid in RunSteps(s, steps) && RunSteps(s, steps)[sid].created == s[sid].created
    decreases |steps|
  {
    if steps != [] {
      assert steps[0] in steps;
      BusyRejectsPrompts(s[sid], if steps[0].sid == sid then steps[0] else Prompt(sid));
      BusyStaysBusy(Apply(s, steps[0]), steps[1..], sid);
    }
  }

  lemma {:induction false} OnePromptFrom(s: State, steps: seq<Step>, sid: Sid)
    requires OneDriverEach(s) && sid in s && IsCompleted(s[sid])
    requires forall step | step in steps :: LeavesTurnOpen(step, sid)
    ensures sid in RunSteps(s, steps)
    ensures RunSteps(s, steps)[sid].created == s[sid].created + if Prompt(sid) in steps then 1 else 0
    decreases |steps|
  {
    if steps != [] {
      var step := steps[0];
      assert step in steps && steps == [step] + steps[1..];
      StepKeepsDriver(s, step);
      if step.sid == sid {
        CompletedAcceptsOne(s[sid], step);
      }
      if step == Prompt(sid) {
        BusyStaysBusy(Apply(s, step), steps[1..], sid);
      } else {
        OnePromptFrom(Apply(s, step), steps[1..], sid);
      }
    }
  }

  /**
   Any number of prompts race for a completed session that any run has led to,
   interleaved with everything else in single accesses: until the session is
   ended or a turn of it is saved as finished, exactly one prompt commits if
   any came, however many there are.
   */
  lemma {:induction false} ExactlyOnePromptCommits(before: seq<Step>, steps: seq<Step>, sid: Sid)
    requires var s := RunSteps(map[], before); sid in s && IsCompleted(s[sid])
    requires forall step | step in steps :: LeavesTurnOpen(step, sid)
    ensures var s := RunSteps(map[], before);
            && sid in RunSteps(s, steps)
            && RunSteps(s, steps)[sid].created == s[sid].created + if Prompt(sid) in steps then 1 else 0
  {
    RunKeepsDriver(map[], before);
    OnePromptFrom(RunSteps(map[], before), steps, sid);
  }

  // ---- The quota ----

  /** The prompt is accepted: it commits on a completed session of the user. */
  predicate AcceptsPromptNow(c: Cell, step: Step, user: nat) {
    step.Prompt? && IsCompleted(c) && c.row.value.user == user
  }

  /** A stale start: the save of "running" over a termination that came after the status was read. */
  predicate Revives(c: Cell, step: Step, user: nat) {
    && step.Worker? && step.action == SaveStart && step.id in c.tasks
    && StaleSave(c.tasks[step.id].phase, SaveStart)
    && c.row.Some? && c.row.value.user == user && c.row.value.status == Terminated
  }

  predicate Activates(s: State, step: Step, user: nat) {
    !step.Create? && step.sid in s && (AcceptsPromptNow(s[step.sid], step, user) || Revives(s[step.sid], step, user))
  }

  /** Accepted prompts and stale starts of the user's sessions along a run. */
  function Activations(s: State, steps: seq<Step>, user: nat): nat
    decreases |steps|
  {
    if steps == [] then 0
    else (if Activates(s, steps[0], user) then 1 else 0) + Activations(Apply(s, steps[0]), steps[1..], user)
  }

  predicate LimitIs(steps: seq<Step>, user: nat, limit: nat) {
    forall step | step in steps && step.Create? && step.user == user :: step.limit == limit
  }

  /** These and nothing else make a session active. */
  lemma {:induction false} OnlyTheseActivate(c: Cell, step: Step, user: nat)
    requires OneDriver(c)
    ensures ActiveFor(StepCell(c, step), user) && !ActiveFor(c, user) <==>
            AcceptsPromptNow(c, step, user) || Revives(c, step, user)
  {
  }

  lemma {:induction false} StepRespectsQuota(s: State, step: Step, user: nat, limit: nat)
    requires OneDriverEach(s) && (step.Create? && step.user == user ==> step.limit == limit)
    ensures |ActiveSessions(Apply(s, step), user)|
         <= Max(limit, |ActiveSessions(s, user)| + if Activates(s, step, user) then 1 else 0)
  {
    if step.Create? {
      if Apply(s, step) != s {
        if step.user == user {
          CreateRespectsQuota(s, step.sid, user, step.name, limit);
        } else {
          ActiveAfterUpdate(s, step.sid, NewCell(step.user, step.name), user);
        }
      }
    } else if step.sid in s {
      var c := s[step.sid];
      if ActiveFor(StepCell(c, step), user) && !ActiveFor(c, user) {
        OnlyTheseActivate(c, step, user);
      }
      ActiveAfterUpdate(s, step.sid, StepCell(c, step), user);
    }
  }

  lemma {:induction false} QuotaFromSteps(s: State, steps: seq<Step>, user: nat, limit: nat, excess: nat)
    requires OneDriverEach(s) && LimitIs(steps, user, limit) && |ActiveSessions(s, user)| <= limit + excess
    ensures |ActiveSessions(RunSteps(s, steps), user)| <= limit + excess + Activations(s, steps, user)
    decreases |steps|
  {
    if steps != [] {
      var step := steps[0];
      assert step in steps;
      StepRespectsQuota(s, step, user, limit);
      StepKeepsDriver(s, step);
      QuotaFromSteps(Apply(s, step), steps[1..], user, limit, excess + if Activates(s, step, user) then 1 else 0);
    }
  }

  /**
   With a fixed limit, over any run of single steps, a user's active sessions
   never exceed the limit plus the prompts accepted and the stale starts.
   */
  lemma QuotaOverSingleSteps(steps: seq<Step>, user: nat, limit: nat)
    requires LimitIs(steps, user, limit)
    ensures |ActiveSessions(RunSteps(map[], steps), user)| <= limit + Activations(map[], steps, user)
  {
    assert ActiveSessions(map[], user) == {};
    QuotaFromSteps(map[], steps, user, limit, 0);
  }

  /** The run of a stale start, with a second session created in between. */
  function StaleRun(name: string, other: string): seq<Step> {
    [Create(0, 0, name, 1)] + UP_TO_THE_READ + [Terminate(0)] + [Create(1, 0, other, 1)] + [Worker(0, 1, SaveStart)]
  }

  lemma {:induction false} StaleRunHasLimitOne(name: string, other: string)
    ensures LimitIs(StaleRun(name, other), 0, 1)
  {
    assert forall step | step in UP_TO_THE_READ :: !step.Create?;
  }

  lemma {:induction false} StaleRunEnds(name: string, other: string)
    requires name != "" && other != "" && name != other
    ensures ActiveSessions(RunSteps(map[], StaleRun(name, other)), 0) == {0, 1}
  {
    RaceUpToTheRead(name);
    ThreeStepsMore(map[], [Create(0, 0, name, 1)] + UP_TO_THE_READ, Terminate(0), Create(1, 0, other, 1),
      Worker(0, 1, SaveStart));
    RoomAfterTerminate(name, other);
    TwoActive(name, other);
  }

  /** A stale start does count: a run without prompts in which a user with limit 1 has two active sessions. */
  lemma {:induction false} StaleStartCanExceedTheLimit(name: string, other: string)
    requires name != "" && other != "" && name != other
    ensures LimitIs(StaleRun(name, other), 0, 1) && |ActiveSessions(RunSteps(map[], StaleRun(name, other)), 0)| == 2
  {
    StaleRunHasLimitOne(name, other);
    StaleRunEnds(name, other);
  }

  lemma {:induction false} ThreeStepsMore(s: State, steps: seq<Step>, a: Step, b: Step, c: Step)
    ensures RunSteps(s, steps + [a] + [b] + [c]) == Apply(Apply(Apply(RunSteps(s, steps), a), b), c)
  {
    OneStepMore(s, steps, a);
    OneStepMore(s, steps + [a], b);
    OneStepMore(s, steps + [a] + [b], c);
  }

  lemma {:induction false} RoomAfterTerminate(name: string, other: string)
    requires name != "" && other != "" && name != other
    ensures var s := map[0 := TerminateCell(ReadDone(name))];
            && Apply(map[0 := ReadDone(name)], Terminate(0)) == s
            && Apply(s, Create(1, 0, other, 1)) == s[1 := NewCell(0, other)]
  {
    ReachesTheRead(name);
    assert ActiveSessions(map[0 := TerminateCell(ReadDone(name))], 0) == {};
  }

  lemma {:induction false} TwoActive(name: string, other: string)
    requires name != "" && other != "" && name != other
    ensures var s := map[0 := TerminateCell(ReadDone(name))][1 := NewCell(0, other)];
            ActiveSessions(Apply(s, Worker(0, 1, SaveStart)), 0) == {0, 1}
  {
    ReachesTheRead(name);
  }
}
