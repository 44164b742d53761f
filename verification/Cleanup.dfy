/** What becomes of the sandbox when its provisioning fails: the cleanup and the session's row, over whole runs. */
module Cleanup {
  import opened Prelude
  import opened Protocol
  import opened TurnAllocation
  import P = Provisioning

  // ---- A handle that is gone stays gone ----

  predicate NoHandle(c: Cell) {
    c.row.None? || c.row.value.handle == ""
  }

  /** A terminated session has no handle, nor has one that a failing task has seen terminated; no turn ends as that. */
  ghost predicate TerminatedIsClear(c: Cell) {
    && (c.row.Some? && c.row.value.status == Terminated ==> NoHandle(c))
    && forall id | id in c.tasks :: ClearFor(c, c.tasks[id].phase)
  }

  predicate ClearFor(c: Cell, phase: Phase) {
    (phase == FailRead(Terminated) ==> NoHandle(c)) && (phase.FinishRead? ==> phase.final != Terminated)
  }

  lemma {:induction false} RequestsKeepClear(c: Cell)
    requires TerminatedIsClear(c)
    ensures TerminatedIsClear(PromptCell(c)) && TerminatedIsClear(TerminateCell(c)) && TerminatedIsClear(DeleteCell(c))
  {
  }

  lemma {:induction false} StatusReadsKeepClear(c: Cell, id: nat, result: CommandResult)
    requires TerminatedIsClear(c) && id in c.tasks
    ensures TerminatedIsClear(ReadingForFail(c, id)) && TerminatedIsClear(ReadingForStart(c, id))
    ensures TerminatedIsClear(ReadingForFinish(c, id, result))
  {
  }

  lemma {:induction false} TaskMovesKeepClear(c: Cell, id: nat)
    requires TerminatedIsClear(c) && id in c.tasks
    ensures TerminatedIsClear(Fetching(c, id)) && TerminatedIsClear(Done(c, id)) && TerminatedIsClear(HandingOut(c, id))
  {
  }

  lemma {:induction false} SavesKeepClear(c: Cell, id: nat)
    requires TerminatedIsClear(c) && id in c.tasks
    ensures TerminatedIsClear(SavingFailSession(c, id)) && TerminatedIsClear(SavingStart(c, id))
    ensures TerminatedIsClear(SavingFinish(c, id))
  {
  }

  lemma {:induction false} TurnSavesKeepClear(c: Cell, id: nat)
    requires TerminatedIsClear(c) && id in c.tasks
    ensures TerminatedIsClear(SavingFailTurn(c, id)) && TerminatedIsClear(SavingStartTurn(c, id))
    ensures TerminatedIsClear(SavingFinishTurn(c, id))
  {
  }

  lemma {:induction false} WorkerKeepsClear(c: Cell, id: nat, action: Action)
    requires TerminatedIsClear(c)
    ensures TerminatedIsClear(WorkerStep(c, id, action))
  {
    if id in c.tasks {
      StatusReadsKeepClear(c, id, if action.ReadForFinish? then action.result else NoResult);
      TaskMovesKeepClear(c, id);
      SavesKeepClear(c, id);
      TurnSavesKeepClear(c, id);
    }
  }

  lemma {:induction false} CellKeepsClear(c: Cell, step: Step)
    requires TerminatedIsClear(c)
    ensures TerminatedIsClear(StepCell(c, step))
  {
    RequestsKeepClear(c);
    if step.Worker? {
      WorkerKeepsClear(c, step.id, step.action);
    }
  }

  lemma {:induction false} RunKeepsClear(s: State, steps: seq<Step>, sid: Sid)
    requires sid in s && TerminatedIsClear(s[sid])
    ensures sid in RunSteps(s, steps) && TerminatedIsClear(RunSteps(s, steps)[sid])
    decreases |steps|
  {
    if steps != [] {
      CellKeepsClear(s[sid], if steps[0].sid == sid then steps[0] else Prompt(sid));
      RunKeepsClear(Apply(s, steps[0]), steps[1..], sid);
    }
  }

  lemma {:induction false} WorkerKeepsNoHandle(c: Cell, id: nat, action: Action)
    requires NoHandle(c)
    ensures NoHandle(WorkerStep(c, id, action))
  {
    if id in c.tasks && action != ProvisionDone {
      WorkerOnlyProgress(c, id, action);
    }
  }

  /** A session whose row names no handle is never released again. */
  lemma {:induction false} NoHandleIsNeverReleased(s: State, steps: seq<Step>, sid: Sid)
    requires sid in s && NoHandle(s[sid])
    ensures !EverReleased(s, steps, sid)
    decreases |steps|
  {
    if steps != [] {
      if steps[0].sid == sid && steps[0].Worker? {
        WorkerKeepsNoHandle(s[sid], steps[0].id, steps[0].action);
      }
      NoHandleIsNeverReleased(Apply(s, steps[0]), steps[1..], sid);
    }
  }

  lemma {:induction false} EverReleasedAppend(s: State, a: seq<Step>, b: seq<Step>, sid: Sid)
    ensures EverReleased(s, a + b, sid) <==> EverReleased(s, a, sid) || EverReleased(RunSteps(s, a), b, sid)
    decreases |a|
  {
    if a == [] {
      assert a + b == b;
    } else {
      assert (a + b)[0] == a[0] && (a + b)[1..] == a[1..] + b;
      EverReleasedAppend(Apply(s, a[0]), a[1..], b, sid);
    }
  }

  // ---- The failed provisioning's sandbox ----

  /** The session's provision task has read the status and is about to save the session as failed. */
  ghost predicate FailingProvision(s: State, sid: Sid, id: nat) {
    sid in s && id in s[sid].tasks && s[sid].tasks[id].job == ProvisionJob && s[sid].tasks[id].phase.FailRead?
  }

  lemma {:induction false} FailureClearsTheHandle(c: Cell, id: nat)
    requires TerminatedIsClear(c) && id in c.tasks
    requires c.tasks[id].job == ProvisionJob && c.tasks[id].phase.FailRead?
    ensures NoHandle(WorkerStep(c, id, SaveFailSession))
  {
    assert ClearFor(c, c.tasks[id].phase);
  }

  lemma {:induction false} FailureReleasesNothingMore(s: State, sid: Sid, id: nat, after: seq<Step>)
    requires FailingProvision(s, sid, id) && TerminatedIsClear(s[sid])
    ensures !EverReleased(s, [Worker(sid, id, SaveFailSession)] + after, sid)
  {
    var save := Worker(sid, id, SaveFailSession);
    FailureClearsTheHandle(s[sid], id);
    NoHandleIsNeverReleased(Apply(s, save), after, sid);
    assert ([save] + after)[0] == save && ([save] + after)[1..] == after;
  }

  /**
   The worker saves a session as failed because its provisioning, which had
   created the sandbox, failed; every access is a step of its own. What the
   provisioning itself did is the world w's affair: one destroy call if the
   error was a typed one, otherwise none. Over whatever comes before and after
   that save a destroy is enqueued if a terminate or delete committed before
   it, and never because of one that comes later: from then on the row names
   no handle. So with an untyped error and neither of those, no destroy is
   ever called or enqueued.
   */
  lemma {:induction false} FailedSandboxIsDestroyedIff(
    before: seq<Step>, user: nat, name: string, limit: nat, sid: Sid, during: seq<Step>, id: nat, after: seq<Step>,
    w: P.World)
    requires CanCreate(RunSteps(map[], before), sid, user, name, limit)
    requires var s := Apply(RunSteps(map[], before), Create(sid, user, name, limit));
             FailingProvision(RunSteps(s, during), sid, id)
    requires P.Provision(w).created && P.Provision(w).raised.Some?
    ensures var s := Apply(RunSteps(map[], before), Create(sid, user, name, limit));
            var end := RunSteps(s, during + ([Worker(sid, id, SaveFailSession)] + after));
            && P.Provision(w).destroys == (if P.FailsTyped(w) then 1 else 0)
            && sid in end && end[sid].destroys == if EverReleased(s, during, sid) then [name] else []
  {
    var s := Apply(RunSteps(map[], before), Create(sid, user, name, limit));
    var rest := [Worker(sid, id, SaveFailSession)] + after;
    RunKeepsClear(s, during, sid);
    FailureReleasesNothingMore(RunSteps(s, during), sid, id, after);
    EverReleasedAppend(s, during, rest, sid);
    DestroyedIffReleased(before, user, name, limit, sid, during + rest);
    P.DestroyCalls(w);
  }
}
