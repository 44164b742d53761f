/**
 What holds between the session row, its turn rows and its live tasks when the
 worker's guarded saves are uninterrupted: when every run is a run of groups.
 */
module JointInvariant {
  import opened Prelude
  import opened Protocol

  // ---- Each group, run without interruption, is one guarded transition ----

  predicate Stable(phase: Phase) {
    phase in {Queued, Fetched, Executing}
  }

  function StartCell(c: Cell, id: nat): Cell {
    if id !in c.tasks || c.tasks[id].phase != Fetched || c.tasks[id].job != TurnJob then c
    else if c.row.None? then Done(c, id)
    else
      var s, turn := c.row.value, c.tasks[id].turn;
      if s.status == Terminated then Done(c.(row := Some(SetTurnStatus(s, turn, Failed))), id)
      else Advance(c.(row := Some(SetTurnStatus(s.(status := Running), turn, Running))), id, Executing)
  }

  function FinishCell(c: Cell, id: nat, result: CommandResult): Cell {
    if id !in c.tasks || c.tasks[id].phase != Executing then c
    else if c.row.None? then Done(c, id)
    else
      var (final, code) := FinalStatus(result);
      var s, turn := c.row.value, c.tasks[id].turn;
      var saved := if s.status == Terminated then s else s.(status := final, exitCode := code);
      Done(c.(row := Some(SetTurn(saved, turn, final, code))), id)
  }

  function FailCell(c: Cell, id: nat): Cell {
    if id !in c.tasks || c.tasks[id].phase != Fetched then c
    else if c.row.None? then Done(c, id)
    else
      var s, t := c.row.value, c.tasks[id];
      var saved :=
        if s.status == Terminated then s
        else if t.job.ProvisionJob? then s.(status := Failed, handle := "")
        else s.(status := Failed);
      Done(c.(row := Some(SetTurnStatus(saved, t.turn, Failed))), id)
  }

  function GroupCell(c: Cell, g: Group): Cell {
    match g
    case Single(step) => StepCell(c, step)
    case StartTurn(_, id) => StartCell(c, id)
    case FinishTurn(_, id, result) => FinishCell(c, id, result)
    case FailTask(_, id) => FailCell(c, id)
  }

  lemma {:induction false} StartIsAtomic(c: Cell, id: nat)
    requires id in c.tasks && Stable(c.tasks[id].phase)
    ensures WorkerStep(WorkerStep(WorkerStep(c, id, ReadForStart), id, SaveStart), id, SaveStartTurn)
            == StartCell(c, id)
  {
    var c1 := ReadingForStart(c, id);
    if c1 != c && c.row.Some? {
      assert c1 == Advance(c, id, StartRead(c.row.value.status));
      var c2 := SavingStart(c1, id);
      if c.row.value.status == Terminated {
        assert c2.tasks == c.tasks - {id};
      } else {
        assert c2 == Advance(c.(row := Some(c.row.value.(status := Running))), id, StartSaved);
        assert SavingStartTurn(c2, id).tasks == c.tasks[id := c.tasks[id].(phase := Executing)];
      }
    }
  }

  lemma {:induction false} FinishSaves(c: Cell, id: nat, result: CommandResult)
    requires id in c.tasks && c.tasks[id].phase == Executing && c.row.Some?
    ensures var (final, code) := FinalStatus(result);
            var s := c.row.value;
            var saved := if s.status == Terminated then s else s.(status := final, exitCode := code);
            SavingFinish(ReadingForFinish(c, id, result), id)
            == Advance(c.(row := Some(saved)), id, FinishSaved(final, code))
  {
    var (final, code) := FinalStatus(result);
    assert ReadingForFinish(c, id, result) == Advance(c, id, FinishRead(c.row.value.status, final, code));
  }

  lemma {:induction false} FinishIsAtomic(c: Cell, id: nat, result: CommandResult)
    requires id in c.tasks && Stable(c.tasks[id].phase)
    ensures WorkerStep(WorkerStep(WorkerStep(c, id, ReadForFinish(result)), id, SaveFinish), id, SaveFinishTurn)
         == FinishCell(c, id, result)
  {
    var (final, code) := FinalStatus(result);
    var c1 := ReadingForFinish(c, id, result);
    if c1 != c && c.row.Some? {
      var s := c.row.value;
      FinishSaves(c, id, result);
      var saved := if s.status == Terminated then s else s.(status := final, exitCode := code);
      var c2 := SavingFinish(c1, id);
      assert c2 == Advance(c.(row := Some(saved)), id, FinishSaved(final, code));
      assert SavingFinishTurn(c2, id).tasks == c.tasks - {id};
    }
  }

  lemma {:induction false} FailIsAtomic(c: Cell, id: nat)
    requires id in c.tasks && Stable(c.tasks[id].phase)
    ensures WorkerStep(WorkerStep(WorkerStep(c, id, ReadForFail), id, SaveFailSession), id, SaveFailTurn)
            == FailCell(c, id)
  {
    var c1 := ReadingForFail(c, id);
    if c1 != c && c.row.Some? {
      assert c1 == Advance(c, id, FailRead(c.row.value.status));
      var c2 := SavingFailSession(c1, id);
      assert c2.tasks == c.tasks[id := c.tasks[id].(phase := FailSaved)];
      assert SavingFailTurn(c2, id).tasks == c.tasks - {id};
    }
  }

  function ThreeSteps(c: Cell, id: nat, a: seq<Action>): Cell
    requires |a| == 3
  {
    WorkerStep(WorkerStep(WorkerStep(c, id, a[0]), id, a[1]), id, a[2])
  }

  lemma GroupIsAtomic(c: Cell, g: Group)
    requires !g.Single?
    requires g.id in c.tasks ==> Stable(c.tasks[g.id].phase)
    ensures ThreeSteps(c, g.id, Actions(g)) == GroupCell(c, g)
  {
    if g.id in c.tasks {
      match g {
        case StartTurn(_, id) => StartIsAtomic(c, id);
        case FinishTurn(_, id, result) => FinishIsAtomic(c, id, result);
        case FailTask(_, id) => FailIsAtomic(c, id);
      }
    }
  }

  lemma GroupRunsThreeSteps(s: State, g: Group)
    requires !g.Single?
    ensures ApplyGroup(s, g) == if g.sid in s then s[g.sid := ThreeSteps(s[g.sid], g.id, Actions(g))] else s
  {
    FoldThree(Apply, s, Expand(g));
  }

  // ---- The joint invariant ----

  predicate TaskFits(t: Task, s: Session)
    requires s.turns != []
  {
    && t.turn == |s.turns| - 1
    && s.turns[t.turn].status == (if t.phase == Executing then Running else Pending)
    && s.status in (if t.phase == Executing then {Running, Terminated} else {Pending, Terminated})
  }

  predicate TurnSucceeded(turn: Turn) {
    turn.status == Completed && turn.exitCode == Some(0)
  }

  ghost predicate RowFits(c: Cell, s: Session) {
    && s.turns != []
    && (forall k | 0 <= k < |s.turns| - 1 :: TurnSucceeded(s.turns[k]))
    && (forall id | id in c.tasks :: TaskFits(c.tasks[id], s))
    && (Active(s.status) ==>
          s.exitCode == None && s.turns[|s.turns| - 1].exitCode == None && (c.tasks != map[] || c.lost))
    && (s.status in {Completed, Failed} ==> c.tasks == map[])
    && (s.status == Completed ==> s.exitCode == Some(0) && TurnSucceeded(s.turns[|s.turns| - 1]))
    && (s.status == Failed ==> s.exitCode != Some(0) && s.turns[|s.turns| - 1].status == Failed)
    && (s.status in {Completed, Failed} ==> s.exitCode == s.turns[|s.turns| - 1].exitCode)
  }

  ghost predicate TasksFit(c: Cell) {
    && (forall i, j | i in c.tasks && j in c.tasks :: i == j)
    && (forall id | id in c.tasks ::
          id < c.next && Stable(c.tasks[id].phase)
            && (c.tasks[id].job.ProvisionJob? ==> c.tasks[id].phase != Executing))
  }

  ghost predicate Joint(c: Cell) {
    TasksFit(c) && (c.row.Some? ==> RowFits(c, c.row.value))
  }

  lemma NewCellFits(user: nat, name: string)
    ensures Joint(NewCell(user, name))
  {
    assert 0 in NewCell(user, name).tasks;
  }

  lemma PromptFits(c: Cell)
    requires Joint(c)
    ensures Joint(PromptCell(c))
  {
    if c.row.Some? && PromptCell(c) != c {
      var s, s' := c.row.value, PromptCell(c).row.value;
      assert c.tasks == map[] && c.next in PromptCell(c).tasks;
      assert forall k | 0 <= k < |s.turns| :: s'.turns[k] == s.turns[k];
    }
  }

  lemma {:induction false} EndingFits(c: Cell)
    requires Joint(c)
    ensures Joint(TerminateCell(c))
    ensures Joint(DeleteCell(c))
  {
  }

  lemma {:induction false} TaskEventFits(c: Cell, id: nat)
    requires Joint(c) && id in c.tasks
    ensures Joint(Fetching(c, id))
    ensures Joint(HandingOut(c, id))
    ensures Joint(Done(c, id).(lost := true))
  {
    assert c.next in (c.tasks - {id})[c.next := c.tasks[id]];
    assert HandingOut(c, id) != c ==> c.next in HandingOut(c, id).tasks;
    assert c.tasks - {id} == map[];
  }

  lemma {:induction false} StartFits(c: Cell, id: nat)
    requires Joint(c) && id in c.tasks
    ensures Joint(StartCell(c, id))
  {
    assert c.tasks - {id} == map[];
  }

  lemma {:induction false} FinishFits(c: Cell, id: nat, result: CommandResult)
    requires Joint(c) && id in c.tasks
    ensures Joint(FinishCell(c, id, result))
  {
    assert c.tasks - {id} == map[];
  }

  lemma {:induction false} FailFits(c: Cell, id: nat)
    requires Joint(c) && id in c.tasks
    ensures Joint(FailCell(c, id))
  {
    assert c.tasks - {id} == map[];
  }

  lemma {:induction false} GroupFits(c: Cell, g: Group)
    requires Joint(c)
    requires g.Single? ==> Groupable(g.step)
    ensures Joint(GroupCell(c, g))
  {
    match g {
      case Single(step) =>
        match step {
          case Create(_, _, _, _) =>
          case Prompt(_) => PromptFits(c);
          case Terminate(_) => EndingFits(c);
          case Delete(_) => EndingFits(c);
          case Worker(_, id, _) => if id in c.tasks { TaskEventFits(c, id); }
        }
      case StartTurn(_, id) => if id in c.tasks { StartFits(c, id); }
      case FinishTurn(_, id, result) => if id in c.tasks { FinishFits(c, id, result); }
      case FailTask(_, id) => if id in c.tasks { FailFits(c, id); }
    }
  }

  // ---- Whole runs ----

  ghost predicate StateFits(s: State) {
    forall sid | sid in s :: Joint(s[sid])
  }

  function GroupSid(g: Group): Sid {
    if g.Single? then g.step.sid else g.sid
  }

  predicate IsCreate(g: Group) {
    g.Single? && g.step.Create?
  }

  lemma {:induction false} GroupOnCell(s: State, g: Group)
    requires StateFits(s)
    ensures IsCreate(g) ==> ApplyGroup(s, g) == Apply(s, g.step)
    ensures !IsCreate(g) ==>
              ApplyGroup(s, g) == if GroupSid(g) in s then s[GroupSid(g) := GroupCell(s[GroupSid(g)], g)] else s
  {
    if g.Single? {
      FoldOne(Apply, s, g.step);
    } else {
      GroupRunsThreeSteps(s, g);
      if g.sid in s {
        assert Joint(s[g.sid]);
        GroupIsAtomic(s[g.sid], g);
      }
    }
  }

  lemma GroupKeepsFit(s: State, g: Group)
    requires StateFits(s)
    requires g.Single? ==> Groupable(g.step)
    ensures StateFits(ApplyGroup(s, g))
  {
    GroupOnCell(s, g);
    if IsCreate(g) {
      NewCellFits(g.step.user, g.step.name);
    } else if GroupSid(g) in s {
      GroupFits(s[GroupSid(g)], g);
    }
  }

  lemma {:induction false} RunKeepsFit(s: State, gs: seq<Group>)
    requires StateFits(s) && WellGrouped(gs)
    ensures StateFits(RunGroups(s, gs))
    decreases |gs|
  {
    if gs != [] {
      assert gs[0] in gs;
      GroupKeepsFit(s, gs[0]);
      RunKeepsFit(ApplyGroup(s, gs[0]), gs[1..]);
    }
  }

  /** No task of the session dies without finishing. */
  predicate CrashFree(gs: seq<Group>, sid: Sid) {
    forall g | g in gs && g.Single? && g.step.Worker? && g.step.sid == sid :: g.step.action != Crash
  }

  lemma {:induction false} NothingLost(s: State, gs: seq<Group>, sid: Sid)
    requires StateFits(s) && WellGrouped(gs) && CrashFree(gs, sid)
    requires sid in s ==> !s[sid].lost
    ensures sid in RunGroups(s, gs) ==> !RunGroups(s, gs)[sid].lost
    decreases |gs|
  {
    if gs != [] {
      assert gs[0] in gs;
      GroupOnCell(s, gs[0]);
      GroupKeepsFit(s, gs[0]);
      NothingLost(ApplyGroup(s, gs[0]), gs[1..], sid);
    }
  }

  /**
   In every reachable state: a pending or running session has exactly one live
   task and it drives the last turn (unless a task of it crashed); a completed
   or failed session has none; every turn but the last succeeded; and a
   completed session and its last turn both carry exit code 0, a failed one and
   its last turn the same other code, or none.
   */
  lemma {:induction false} JointInvariantHolds(gs: seq<Group>, sid: Sid)
    requires WellGrouped(gs)
    requires sid in RunGroups(map[], gs) && RunGroups(map[], gs)[sid].row.Some?
    ensures var c := RunGroups(map[], gs)[sid];
            var s := c.row.value;
            var last := |s.turns| - 1;
            && last >= 0
            && (forall i, j | i in c.tasks && j in c.tasks :: i == j)
            && (Active(s.status) && CrashFree(gs, sid) ==>
                  exists id :: c.tasks.Keys == {id} && c.tasks[id].turn == last)
            && (s.status in {Completed, Failed} ==> c.tasks == map[])
            && (forall k | 0 <= k < last :: s.turns[k].status == Completed && s.turns[k].exitCode == Some(0))
            && (s.status == Completed ==>
                  s.exitCode == Some(0) && s.turns[last].status == Completed && s.turns[last].exitCode == Some(0))
            && (s.status == Failed ==>
                  s.exitCode == s.turns[last].exitCode != Some(0) && s.turns[last].status == Failed)
  {
    RunKeepsFit(map[], gs);
    var c := RunGroups(map[], gs)[sid];
    assert Joint(c);
    if Active(c.row.value.status) && CrashFree(gs, sid) {
      NothingLost(map[], gs, sid);
      var id :| id in c.tasks;
      assert c.tasks.Keys == {id};
    }
  }

  // ---- Status history ----

  datatype Observed = NotCreated | Live(status: Status) | Deleted

  function Observe(s: State, sid: Sid): Observed {
    if sid !in s then NotCreated
    else if s[sid].row.None? then Deleted
    else Live(s[sid].row.value.status)
  }

  /** The only ways the status a client can observe changes. */
  predicate Allowed(a: Observed, b: Observed) {
    || a == b
    || (a, b) in {
         (NotCreated, Live(Pending)),
         (Live(Pending), Live(Running)), (Live(Pending), Live(Failed)),
         (Live(Running), Live(Completed)), (Live(Running), Live(Failed)),
         (Live(Completed), Live(Pending))}
    || (a.Live? && b == Live(Terminated))
    || (a in {Live(Completed), Live(Failed), Live(Terminated)} && b == Deleted)
  }

  function ObserveRow(row: Option<Session>): Observed {
    if row.None? then Deleted else Live(row.value.status)
  }

  lemma {:induction false} RequestsMoveStatus(c: Cell)
    ensures Allowed(ObserveRow(c.row), ObserveRow(PromptCell(c).row))
    ensures Allowed(ObserveRow(c.row), ObserveRow(TerminateCell(c).row))
    ensures Allowed(ObserveRow(c.row), ObserveRow(DeleteCell(c).row))
  {
  }

  lemma {:induction false} StartMovesStatus(c: Cell, id: nat)
    requires Joint(c)
    ensures Allowed(ObserveRow(c.row), ObserveRow(StartCell(c, id).row))
  {
  }

  lemma {:induction false} FinishMovesStatus(c: Cell, id: nat, result: CommandResult)
    requires Joint(c)
    ensures Allowed(ObserveRow(c.row), ObserveRow(FinishCell(c, id, result).row))
  {
  }

  lemma {:induction false} FailMovesStatus(c: Cell, id: nat)
    requires Joint(c)
    ensures Allowed(ObserveRow(c.row), ObserveRow(FailCell(c, id).row))
  {
  }

  lemma {:induction false} GroupMovesStatus(c: Cell, g: Group)
    requires Joint(c)
    requires g.Single? ==> Groupable(g.step)
    ensures Allowed(ObserveRow(c.row), ObserveRow(GroupCell(c, g).row))
  {
    match g
    case Single(_) => RequestsMoveStatus(c);
    case StartTurn(_, id) => StartMovesStatus(c, id);
    case FinishTurn(_, id, result) => FinishMovesStatus(c, id, result);
    case FailTask(_, id) => FailMovesStatus(c, id);
  }

  lemma {:induction false} StepMovesStatus(s: State, g: Group, sid: Sid)
    requires StateFits(s)
    requires g.Single? ==> Groupable(g.step)
    ensures Allowed(Observe(s, sid), Observe(ApplyGroup(s, g), sid))
  {
    GroupOnCell(s, g);
    if !IsCreate(g) && sid in s {
      GroupMovesStatus(s[sid], g);
    }
  }

  /** The session as a client sees it after the first k groups of a run. */
  function ObservedAfter(gs: seq<Group>, k: nat, sid: Sid): Observed
    requires k <= |gs|
  {
    Observe(RunGroups(map[], gs[..k]), sid)
  }

  lemma {:induction false} StatusHistory(gs: seq<Group>, k: nat, sid: Sid)
    requires WellGrouped(gs) && k < |gs|
    ensures Allowed(ObservedAfter(gs, k, sid), ObservedAfter(gs, k + 1, sid))
  {
    var s := RunGroups(map[], gs[..k]);
    RunKeepsFit(map[], gs[..k]);
    assert gs[..k + 1] == gs[..k] + [gs[k]];
    FoldAppend(ApplyGroup, map[], gs[..k], [gs[k]]);
    assert RunGroups(map[], gs[..k + 1]) == RunGroups(ApplyGroup(s, gs[k]), []);
    assert gs[k] in gs;
    StepMovesStatus(s, gs[k], sid);
  }

  /** Once terminated, a session stays terminated until it is deleted; once failed, it can only be terminated. */
  lemma {:induction false} EndStatesLast(gs: seq<Group>, i: nat, j: nat, sid: Sid)
    requires WellGrouped(gs) && i <= j <= |gs|
    ensures ObservedAfter(gs, i, sid) in {Live(Terminated), Deleted} ==>
              ObservedAfter(gs, j, sid) in {ObservedAfter(gs, i, sid), Deleted}
    ensures ObservedAfter(gs, i, sid) == Live(Failed) ==>
              ObservedAfter(gs, j, sid) in {Live(Failed), Live(Terminated), Deleted}
    decreases j - i
  {
    if i < j {
      StatusHistory(gs, i, sid);
      EndStatesLast(gs, i + 1, j, sid);
    }
  }

  // ---- Quota ----

  lemma ActiveAfterUpdate(s: State, sid: Sid, d: Cell, user: nat)
    ensures |ActiveSessions(s[sid := d], user)| <= |ActiveSessions(s, user)| + 1
    ensures (ActiveFor(d, user) ==> sid in s && ActiveFor(s[sid], user)) ==>
              |ActiveSessions(s[sid := d], user)| <= |ActiveSessions(s, user)|
  {
    var before, after := ActiveSessions(s, user), ActiveSessions(s[sid := d], user);
    SubsetIsSmaller(after, before + {sid});
    if ActiveFor(d, user) ==> sid in s && ActiveFor(s[sid], user) {
      SubsetIsSmaller(after, before);
    }
  }

  /** A committed create leaves the user's active sessions within the limit it was checked against. */
  lemma CreateRespectsQuota(s: State, sid: Sid, user: nat, name: string, limit: nat)
    requires CanCreate(s, sid, user, name, limit)
    ensures |ActiveSessions(Apply(s, Create(sid, user, name, limit)), user)| <= limit
  {
    ActiveAfterUpdate(s, sid, NewCell(user, name), user);
  }

  predicate AcceptsPrompt(s: State, g: Group, user: nat) {
    && g.Single? && g.step.Prompt? && g.step.sid in s
    && s[g.step.sid].row.Some? && s[g.step.sid].row.value.user == user
    && s[g.step.sid].row.value.status == Completed
  }

  function AcceptedPrompts(s: State, gs: seq<Group>, user: nat): nat
    decreases |gs|
  {
    if gs == [] then 0
    else (if AcceptsPrompt(s, gs[0], user) then 1 else 0) + AcceptedPrompts(ApplyGroup(s, gs[0]), gs[1..], user)
  }

  predicate FixedLimit(gs: seq<Group>, user: nat, limit: nat) {
    forall g | g in gs && IsCreate(g) && g.step.user == user :: g.step.limit == limit
  }

  lemma {:induction false} OnlyPromptsActivate(c: Cell, g: Group, user: nat)
    requires Joint(c) && !IsCreate(g)
    requires g.Single? ==> Groupable(g.step)
    requires ActiveFor(GroupCell(c, g), user)
    ensures ActiveFor(c, user)
            || (g.Single? && g.step.Prompt? && c.row.Some? && c.row.value.user == user
                && c.row.value.status == Completed)
  {
    GroupMovesStatus(c, g);
  }

  lemma {:induction false} GroupRespectsQuota(s: State, g: Group, user: nat, limit: nat)
    requires StateFits(s)
    requires g.Single? ==> Groupable(g.step)
    requires IsCreate(g) && g.step.user == user ==> g.step.limit == limit
    ensures |ActiveSessions(ApplyGroup(s, g), user)|
         <= Max(limit, |ActiveSessions(s, user)| + if AcceptsPrompt(s, g, user) then 1 else 0)
  {
    GroupOnCell(s, g);
    if IsCreate(g) {
      if Apply(s, g.step) != s {
        if g.step.user == user {
          CreateRespectsQuota(s, g.step.sid, user, g.step.name, limit);
        } else {
          ActiveAfterUpdate(s, g.step.sid, NewCell(g.step.user, g.step.name), user);
        }
      }
    } else if GroupSid(g) in s {
      var c := s[GroupSid(g)];
      if ActiveFor(GroupCell(c, g), user) {
        OnlyPromptsActivate(c, g, user);
      }
      ActiveAfterUpdate(s, GroupSid(g), GroupCell(c, g), user);
    }
  }

  lemma {:induction false} QuotaFrom(s: State, gs: seq<Group>, user: nat, limit: nat, excess: nat)
    requires StateFits(s) && WellGrouped(gs) && FixedLimit(gs, user, limit)
    requires |ActiveSessions(s, user)| <= limit + excess
    ensures |ActiveSessions(RunGroups(s, gs), user)| <= limit + excess + AcceptedPrompts(s, gs, user)
    decreases |gs|
  {
    if gs != [] {
      var g := gs[0];
      assert g in gs;
      GroupRespectsQuota(s, g, user, limit);
      GroupKeepsFit(s, g);
      QuotaFrom(ApplyGroup(s, g), gs[1..], user, limit, excess + if AcceptsPrompt(s, g, user) then 1 else 0);
    }
  }

  /** With a fixed limit, a user's active sessions never exceed the limit plus the prompts accepted so far. */
  lemma QuotaOverRuns(gs: seq<Group>, user: nat, limit: nat)
    requires WellGrouped(gs) && FixedLimit(gs, user, limit)
    ensures |ActiveSessions(RunGroups(map[], gs), user)| <= limit + AcceptedPrompts(map[], gs, user)
  {
    assert ActiveSessions(map[], user) == {};
    QuotaFrom(map[], gs, user, limit, 0);
  }

  lemma {:induction false} NoPromptsAccepted(s: State, gs: seq<Group>, user: nat)
    requires forall g | g in gs && g.Single? :: !g.step.Prompt?
    ensures AcceptedPrompts(s, gs, user) == 0
    decreases |gs|
  {
    if gs != [] {
      assert gs[0] in gs;
      NoPromptsAccepted(ApplyGroup(s, gs[0]), gs[1..], user);
    }
  }

  lemma PromptFreeRunsStayWithinQuota(gs: seq<Group>, user: nat, limit: nat)
    requires WellGrouped(gs) && FixedLimit(gs, user, limit)
    requires forall g | g in gs && g.Single? :: !g.step.Prompt?
    ensures |ActiveSessions(RunGroups(map[], gs), user)| <= limit
  {
    QuotaOverRuns(gs, user, limit);
    NoPromptsAccepted(map[], gs, user);
  }
}
