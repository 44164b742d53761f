/**
 Properties of the protocol that hold with every refresh and every save as a
 step of its own: how turns are numbered and handed out, and how often the
 backend handle of a session is destroyed.
 */
module TurnAllocation {
  import opened Prelude
  import opened Protocol

  // ---- Turn numbers ----

  ghost predicate Numbered(turns: seq<Turn>) {
    forall k | 0 <= k < |turns| :: turns[k].number == k + 1
  }

  lemma {:induction false} MaxOfNumbered(turns: seq<Turn>)
    requires Numbered(turns)
    ensures MaxTurnNumber(turns) == |turns|
  {
    if turns != [] {
      MaxOfNumbered(turns[..|turns| - 1]);
    }
  }

  ghost predicate TaskOwnsTurn(c: Cell, id: nat)
    requires id in c.tasks
  {
    var t := c.tasks[id];
    && id < c.next
    && t.turn < c.created
    && (t.mode == Run <==> t.turn == 0)
    && (t.job.ProvisionJob? <==> id == 0)
    && (t.job.ProvisionJob? ==> t.turn == 0 && !HandedOut(c, 0))
    && (t.job.TurnJob? ==> HandedOut(c, t.turn))
  }

  ghost predicate HandedOut(c: Cell, turn: nat) {
    exists i | 0 <= i < |c.handed| :: c.handed[i].0 == turn
  }

  ghost predicate HandedOnce(handed: seq<(nat, Mode)>) {
    forall i, j | 0 <= i < j < |handed| :: handed[i].0 != handed[j].0
  }

  /** Turn numbers are 1..n, no turn is handed out twice, and only turn 1 runs in "run" mode. */
  ghost predicate Allocation(c: Cell) {
    && c.next >= 1 && c.created >= 1
    && (c.row.Some? ==> Numbered(c.row.value.turns) && |c.row.value.turns| == c.created)
    && (forall id | id in c.tasks :: TaskOwnsTurn(c, id))
    && (forall i, j | i in c.tasks && j in c.tasks && c.tasks[i].turn == c.tasks[j].turn :: i == j)
    && HandedOnce(c.handed)
    && (forall i | 0 <= i < |c.handed| :: c.handed[i].0 < c.created && (c.handed[i].1 == Run <==> c.handed[i].0 == 0))
  }

  // ---- Destroys ----

  /** At most one destroy, of the handle the session was created with, and none while the row holds it. */
  ghost predicate DestroyedAtMostOnce(c: Cell) {
    && c.name != ""
    && (c.destroys == [] || c.destroys == [c.name])
    && (c.row.Some? && c.row.value.handle != "" ==> c.row.value.handle == c.name && c.destroys == [])
  }

  ghost predicate Sound(c: Cell) {
    Allocation(c) && DestroyedAtMostOnce(c)
  }

  // ---- One step ----

  lemma NewCellIsSound(user: nat, name: string)
    requires name != ""
    ensures Sound(NewCell(user, name))
  {
  }

  lemma {:induction false} PromptKeeps(c: Cell)
    requires Sound(c)
    ensures Sound(PromptCell(c))
  {
    if c.row.Some? {
      MaxOfNumbered(c.row.value.turns);
      var d := PromptCell(c);
      if d != c {
        assert d.handed[|c.handed|].0 == c.created;
        forall k | HandedOut(c, k) ensures HandedOut(d, k) {
          var i :| 0 <= i < |c.handed| && c.handed[i].0 == k;
          assert d.handed[i].0 == k;
        }
        forall id | id in d.tasks ensures TaskOwnsTurn(d, id) {
          if id in c.tasks && id != c.next {
            assert TaskOwnsTurn(c, id);
          }
        }
      }
    }
  }

  lemma {:induction false} HandingOutKeeps(c: Cell, id: nat)
    requires Sound(c)
    requires id in c.tasks && c.tasks[id].job.ProvisionJob? && c.tasks[id].phase == Fetched
    ensures Sound(HandingOut(c, id))
  {
    var d := HandingOut(c, id);
    assert TaskOwnsTurn(c, id);
    assert d.handed[|c.handed|] == (0, Run);
    forall k | HandedOut(c, k) ensures HandedOut(d, k) {
      var i :| 0 <= i < |c.handed| && c.handed[i].0 == k;
      assert d.handed[i].0 == k;
    }
    forall j | j in d.tasks ensures TaskOwnsTurn(d, j) {
      if j != c.next {
        assert j in c.tasks && TaskOwnsTurn(c, j);
      }
    }
  }

  ghost predicate SameNumbers(a: seq<Turn>, b: seq<Turn>) {
    |a| == |b| && forall k | 0 <= k < |a| :: a[k].number == b[k].number
  }

  ghost predicate SameWork(a: Task, b: Task) {
    a.job == b.job && a.turn == b.turn && a.mode == b.mode
  }

  /** What any save, phase change or task end may change: statuses, exit codes, phases, and a handle to "". */
  ghost predicate OnlyProgress(c: Cell, d: Cell) {
    && d.name == c.name && d.next == c.next && d.destroys == c.destroys
    && d.created == c.created && d.handed == c.handed
    && (d.row.Some? ==>
          && c.row.Some?
          && SameNumbers(d.row.value.turns, c.row.value.turns)
          && d.row.value.handle in {c.row.value.handle, ""})
    && (forall id | id in d.tasks :: id in c.tasks && SameWork(d.tasks[id], c.tasks[id]))
  }

  lemma ProgressKeeps(c: Cell, d: Cell)
    requires Sound(c) && OnlyProgress(c, d)
    ensures Sound(d)
  {
    forall id | id in d.tasks ensures TaskOwnsTurn(d, id) {
      assert TaskOwnsTurn(c, id) && SameWork(d.tasks[id], c.tasks[id]);
    }
  }

  lemma {:induction false} ReadsOnlyProgress(c: Cell, id: nat, result: CommandResult)
    requires id in c.tasks
    ensures OnlyProgress(c, Fetching(c, id))
    ensures OnlyProgress(c, ReadingForFail(c, id))
    ensures OnlyProgress(c, ReadingForStart(c, id))
    ensures OnlyProgress(c, ReadingForFinish(c, id, result))
  {
  }

  lemma {:induction false} SaveFinishOnlyProgress(c: Cell, id: nat)
    requires id in c.tasks
    ensures OnlyProgress(c, SavingFinish(c, id))
  {
  }

  lemma {:induction false} SessionSavesOnlyProgress(c: Cell, id: nat)
    requires id in c.tasks
    ensures OnlyProgress(c, SavingFailSession(c, id))
    ensures OnlyProgress(c, SavingStart(c, id))
    ensures OnlyProgress(c, SavingFinish(c, id))
  {
    SaveFinishOnlyProgress(c, id);
  }

  lemma {:induction false} TurnSavesOnlyProgress(c: Cell, id: nat)
    requires id in c.tasks
    ensures OnlyProgress(c, SavingFailTurn(c, id))
    ensures OnlyProgress(c, SavingStartTurn(c, id))
    ensures OnlyProgress(c, SavingFinishTurn(c, id))
  {
  }

  /** Every worker access but the hand-out is progress. */
  lemma {:induction false} WorkerOnlyProgress(c: Cell, id: nat, action: Action)
    requires id in c.tasks && !action.ProvisionDone?
    ensures OnlyProgress(c, WorkerStep(c, id, action))
  {
    if action.Fetch? || action.ReadForFail? || action.ReadForStart? || action.ReadForFinish? {
      ReadsOnlyProgress(c, id, if action.ReadForFinish? then action.result else NoResult);
    } else if action.SaveFailSession? || action.SaveStart? || action.SaveFinish? {
      SessionSavesOnlyProgress(c, id);
    } else if !action.Crash? {
      TurnSavesOnlyProgress(c, id);
    }
  }

  lemma {:induction false} WorkerKeeps(c: Cell, id: nat, action: Action)
    requires Sound(c)
    ensures Sound(WorkerStep(c, id, action)) && WorkerStep(c, id, action).name == c.name
  {
    if id in c.tasks {
      if action.ProvisionDone? {
        if HandingOut(c, id) != c {
          HandingOutKeeps(c, id);
        }
      } else {
        WorkerOnlyProgress(c, id, action);
        ProgressKeeps(c, WorkerStep(c, id, action));
      }
    }
  }

  lemma {:induction false} TerminateKeeps(c: Cell)
    requires Sound(c)
    ensures Sound(TerminateCell(c))
  {
    var d := TerminateCell(c);
    if d != c {
      ProgressKeeps(c, d.(destroys := c.destroys));
    }
  }

  lemma {:induction false} DeleteKeeps(c: Cell)
    requires Sound(c)
    ensures Sound(DeleteCell(c))
  {
    var d := DeleteCell(c);
    if d != c {
      ProgressKeeps(c, d.(destroys := c.destroys));
    }
  }

  // ---- Whole runs ----

  ghost predicate SoundState(s: State) {
    && (forall sid | sid in s :: Sound(s[sid]))
    && (forall a, b | a in s && b in s && s[a].name == s[b].name :: a == b)
  }

  lemma CellKeeps(c: Cell, step: Step)
    requires Sound(c)
    ensures Sound(StepCell(c, step)) && StepCell(c, step).name == c.name
  {
    match step {
      case Create(_, _, _, _) =>
      case Prompt(_) => PromptKeeps(c);
      case Terminate(_) => TerminateKeeps(c);
      case Delete(_) => DeleteKeeps(c);
      case Worker(_, id, action) => WorkerKeeps(c, id, action);
    }
  }

  lemma UpdateKeeps(s: State, sid: Sid, d: Cell)
    requires SoundState(s) && Sound(d)
    requires if sid in s then d.name == s[sid].name else FreshName(s, d.name)
    ensures SoundState(s[sid := d])
  {
  }

  lemma {:induction false} StepKeeps(s: State, step: Step)
    requires SoundState(s)
    ensures SoundState(Apply(s, step))
  {
    if step.Create? {
      if CanCreate(s, step.sid, step.user, step.name, step.limit) {
        NewCellIsSound(step.user, step.name);
        UpdateKeeps(s, step.sid, NewCell(step.user, step.name));
      }
    } else if step.sid in s {
      CellKeeps(s[step.sid], step);
      UpdateKeeps(s, step.sid, StepCell(s[step.sid], step));
    }
  }

  lemma {:induction false} RunKeeps(s: State, steps: seq<Step>)
    requires SoundState(s)
    ensures SoundState(RunSteps(s, steps))
    decreases |steps|
  {
    if steps != [] {
      StepKeeps(s, steps[0]);
      RunKeeps(Apply(s, steps[0]), steps[1..]);
    }
  }

  /**
   Whatever the interleaving of requests and single worker accesses: the turns
   of a session are numbered 1..n, no turn is handed to a second execute_turn,
   two live tasks never drive one turn, and the mode is "run" exactly for turn 1.
   */
  lemma TurnsAreAllocatedOnce(steps: seq<Step>, sid: Sid)
    requires sid in RunSteps(map[], steps)
    ensures var c := RunSteps(map[], steps)[sid];
            && (c.row.Some? ==> forall k | 0 <= k < |c.row.value.turns| :: c.row.value.turns[k].number == k + 1)
            && (forall i, j | 0 <= i < j < |c.handed| :: c.handed[i].0 != c.handed[j].0)
            && (forall i, j | i in c.tasks && j in c.tasks && c.tasks[i].turn == c.tasks[j].turn :: i == j)
            && (forall i | 0 <= i < |c.handed| :: c.handed[i].1 == Run <==> c.handed[i].0 == 0)
  {
    RunKeeps(map[], steps);
  }

  /** Over any run, one backend handle is enqueued for destruction at most once, system-wide. */
  lemma {:induction false} HandlesAreDestroyedOnce(steps: seq<Step>, a: Sid, i: nat, b: Sid, j: nat)
    requires var s := RunSteps(map[], steps);
             a in s && b in s && i < |s[a].destroys| && j < |s[b].destroys| && s[a].destroys[i] == s[b].destroys[j]
    ensures a == b && i == j
  {
    RunKeeps(map[], steps);
    var s := RunSteps(map[], steps);
    assert Sound(s[a]) && Sound(s[b]);
  }

  /** The request commits while the session row still holds its backend handle. */
  ghost predicate ReleasesHandle(c: Cell, step: Step) {
    && c.row.Some? && c.row.value.handle != ""
    && (|| (step.Terminate? && CanTerminate(c.row.value.status))
        || (step.Delete? && CanDelete(c.row.value.status)))
  }

  ghost predicate EverReleased(s: State, steps: seq<Step>, sid: Sid)
    decreases |steps|
  {
    steps != [] &&
    (|| (sid in s && steps[0].sid == sid && ReleasesHandle(s[sid], steps[0]))
     || EverReleased(Apply(s, steps[0]), steps[1..], sid))
  }

  lemma WorkerDestroysNothing(c: Cell, id: nat, action: Action)
    ensures WorkerStep(c, id, action).destroys == c.destroys
  {
    if id in c.tasks && action != ProvisionDone {
      WorkerOnlyProgress(c, id, action);
    }
  }

  lemma CellDestroysIff(c: Cell, step: Step)
    requires DestroyedAtMostOnce(c)
    ensures StepCell(c, step).destroys == if ReleasesHandle(c, step) then [c.name] else c.destroys
  {
    if step.Worker? {
      WorkerDestroysNothing(c, step.id, step.action);
    }
  }

  lemma {:induction false} StepDestroys(s: State, step: Step, sid: Sid)
    requires SoundState(s) && sid in s
    ensures sid in Apply(s, step) && Apply(s, step)[sid].name == s[sid].name
    ensures Apply(s, step)[sid].destroys ==
            if step.sid == sid && ReleasesHandle(s[sid], step) then [s[sid].name] else s[sid].destroys
  {
    assert Sound(s[sid]);
    if step.sid == sid {
      CellDestroysIff(s[sid], step);
      CellKeeps(s[sid], step);
    }
  }

  lemma {:induction false} DestroyedFrom(s: State, steps: seq<Step>, sid: Sid)
    requires SoundState(s) && sid in s
    ensures sid in RunSteps(s, steps)
    ensures RunSteps(s, steps)[sid].destroys ==
            if EverReleased(s, steps, sid) then [s[sid].name] else s[sid].destroys
    decreases |steps|
  {
    if steps != [] {
      StepKeeps(s, steps[0]);
      StepDestroys(s, steps[0], sid);
      DestroyedFrom(Apply(s, steps[0]), steps[1..], sid);
    }
  }

  /**
   Exactly one destroy of a session's handle is enqueued if a terminate or a
   delete committed while the row still held it, and none otherwise.
   */
  lemma DestroyedIffReleased(before: seq<Step>, user: nat, name: string, limit: nat, sid: Sid, after: seq<Step>)
    requires CanCreate(RunSteps(map[], before), sid, user, name, limit)
    ensures var s := Apply(RunSteps(map[], before), Create(sid, user, name, limit));
            && sid in s && sid in RunSteps(s, after)
            && RunSteps(s, after)[sid].destroys == if EverReleased(s, after, sid) then [name] else []
  {
    RunKeeps(map[], before);
    var s := RunSteps(map[], before);
    StepKeeps(s, Create(sid, user, name, limit));
    DestroyedFrom(Apply(s, Create(sid, user, name, limit)), after, sid);
  }
}
