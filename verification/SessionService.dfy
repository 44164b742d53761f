/**
 The code that changes session and turn rows, statement by statement, against
 the transitions of Protocol. Each web view runs under the session's row lock;
 each worker routine is one uninterrupted guard-and-save group.
 */
module SessionService {
  import opened Prelude
  import opened Protocol
  import opened JointInvariant

  /** Nothing but this session has changed. */
  ghost predicate OnlyThis(before: State, after: State, sid: Sid) {
    after.Keys == before.Keys + {sid} && forall other | other in before && other != sid :: after[other] == before[other]
  }

  /** The handle is enqueued for destruction, if the row named one. */
  function Enqueued(c: Cell): seq<string> {
    if c.row.None? || c.row.value.handle == "" then c.destroys else c.destroys + [c.row.value.handle]
  }

  predicate Greatest(n: nat, turns: seq<Turn>) {
    (forall k | 0 <= k < |turns| :: turns[k].number <= n)
    && (turns == [] ==> n == 0) && (turns != [] ==> exists k | 0 <= k < |turns| :: turns[k].number == n)
  }

  lemma {:induction false} MaxIsGreatest(turns: seq<Turn>)
    ensures Greatest(MaxTurnNumber(turns), turns)
  {
    if turns != [] {
      var last := |turns| - 1;
      MaxIsGreatest(turns[..last]);
      assert turns == turns[..last] + [turns[last]];
      if last == 0 || turns[last].number >= MaxTurnNumber(turns[..last]) {
        assert turns[last].number == MaxTurnNumber(turns);
      } else {
        var k :| 0 <= k < last && turns[..last][k].number == MaxTurnNumber(turns[..last]);
        assert turns[k].number == MaxTurnNumber(turns);
      }
    }
  }

  /** The session is pending again, without an exit code, and has one more turn, numbered after all the others. */
  predicate Prompted(s: Session, t: Session) {
    && t.status == Pending && t.exitCode == None && t.handle == s.handle && t.user == s.user
    && |t.turns| == |s.turns| + 1 && s.turns <= t.turns
    && var last := t.turns[|s.turns|];
       last.status == Pending && last.exitCode == None && last.number >= 1 && Greatest(last.number - 1, s.turns)
  }

  datatype Response = Accepted | Done200 | NotFound | Conflict | QuotaExceeded

  class Tables {
    var cells: State

    constructor ()
      ensures cells == map[]
    {
      cells := map[];
    }

    // ---- Web views ----

    /** `configured` is the user's own limit, null or 0 when there is none. */
    method CreateSession(sid: Sid, user: nat, name: string, configured: Option<nat>, default: nat)
      returns (response: Response)
      requires sid !in cells && FreshName(cells, name)
      modifies this
      ensures var limit := if configured.None? || configured.value == 0 then default else configured.value;
              && cells == Apply(old(cells), Create(sid, user, name, limit))
              && (response == QuotaExceeded <==> |ActiveSessions(old(cells), user)| >= limit)
              && (response == QuotaExceeded ==> cells == old(cells))
      ensures response in {Accepted, QuotaExceeded}
      ensures response == Accepted ==>
                && OnlyThis(old(cells), cells, sid)
                && cells[sid].row == Some(Session(user, Pending, None, name, [Turn(1, Pending, None)]))
                && cells[sid].tasks == map[0 := Task(ProvisionJob, 0, Run, Queued)] && cells[sid].destroys == []
    {
      var limit := default;
      if configured.Some? && configured.value != 0 {
        limit := configured.value;
      }
      var count := |ActiveSessions(cells, user)|;
      if count >= limit {
        return QuotaExceeded;
      }
      var turn := Turn(1, Pending, None);
      var session := Session(user, Pending, None, name, [turn]);
      var task := Task(ProvisionJob, 0, Run, Queued);
      cells := cells[sid := Cell(name, Some(session), map[0 := task], 1, [], 1, [], false)];
      return Accepted;
    }

    method SendPrompt(sid: Sid) returns (response: Response)
      requires sid in cells
      modifies this
      ensures cells == Apply(old(cells), Prompt(sid))
      ensures response == NotFound <==> old(cells)[sid].row.None?
      ensures response == Accepted <==> old(cells)[sid].row.Some? && old(cells)[sid].row.value.status == Completed
      ensures response in {Accepted, NotFound, Conflict}
      ensures response != Accepted ==> cells == old(cells)
      ensures response == Accepted ==>
                var c, d := old(cells)[sid], cells[sid];
                && OnlyThis(old(cells), cells, sid) && d.row.Some? && d.destroys == c.destroys
                && Prompted(c.row.value, d.row.value)
                && d.tasks == c.tasks[c.next := Task(TurnJob, |c.row.value.turns|, Continue, Queued)]
    {
      MaxIsGreatest(if cells[sid].row.Some? then cells[sid].row.value.turns else []);
      var c := cells[sid];
      if c.row.None? {
        return NotFound;
      }
      var locked := c.row.value;
      if !CanAcceptPrompt(locked.status) {
        return Conflict;
      }
      if locked.status == Pending {
        return Conflict;
      }
      var number := MaxTurnNumber(locked.turns) + 1;
      locked := locked.(turns := locked.turns + [Turn(number, Pending, None)]);
      locked := locked.(status := Pending, exitCode := None);
      var index := |locked.turns| - 1;
      c := c.(row := Some(locked), created := c.created + 1);
      c := c.(tasks := c.tasks[c.next := Task(TurnJob, index, Continue, Queued)], next := c.next + 1);
      c := c.(handed := c.handed + [(index, Continue)]);
      cells := cells[sid := c];
      return Accepted;
    }

    method TerminateSession(sid: Sid) returns (response: Response)
      requires sid in cells
      modifies this
      ensures cells == Apply(old(cells), Terminate(sid))
      ensures response == NotFound <==> old(cells)[sid].row.None?
      ensures response == Done200 <==> old(cells)[sid].row.Some? && old(cells)[sid].row.value.status != Terminated
      ensures response in {Done200, NotFound, Conflict}
      ensures response != Done200 ==> cells == old(cells)
      ensures response == Done200 ==>
                var c, d := old(cells)[sid], cells[sid];
                && OnlyThis(old(cells), cells, sid) && d.row.Some? && d.tasks == c.tasks
                && d.row.value.status == Terminated && d.row.value.handle == ""
                && d.row.value.turns == c.row.value.turns && d.row.value.exitCode == c.row.value.exitCode
                && d.row.value.user == c.row.value.user && d.destroys == Enqueued(c)
    {
      var c := cells[sid];
      if c.row.None? {
        return NotFound;
      }
      var session := c.row.value;
      if !CanTerminate(session.status) {
        return Conflict;
      }
      var handle := session.handle;
      session := session.(status := Terminated);
      session := session.(handle := "");
      c := c.(row := Some(session));
      if handle != "" {
        c := c.(destroys := c.destroys + [handle]);
      }
      cells := cells[sid := c];
      return Done200;
    }

    /** The pre-delete signal enqueues the destroy, then the row goes. */
    method DeleteSession(sid: Sid) returns (response: Response)
      requires sid in cells
      modifies this
      ensures cells == Apply(old(cells), Delete(sid))
      ensures response == NotFound <==> old(cells)[sid].row.None?
      ensures response == Conflict <==>
                old(cells)[sid].row.Some? && old(cells)[sid].row.value.status in {Pending, Running}
      ensures response in {Done200, NotFound, Conflict}
      ensures response != Done200 ==> cells == old(cells)
      ensures response == Done200 ==>
                && OnlyThis(old(cells), cells, sid) && cells[sid].row == None
                && cells[sid].tasks == old(cells)[sid].tasks && cells[sid].destroys == Enqueued(old(cells)[sid])
    {
      var c := cells[sid];
      if c.row.None? {
        return NotFound;
      }
      var session := c.row.value;
      if !CanDelete(session.status) {
        return Conflict;
      }
      if session.handle != "" {
        c := c.(destroys := c.destroys + [session.handle]);
      }
      c := c.(row := None);
      cells := cells[sid := c];
      return Done200;
    }

    // ---- Row saves of the worker ----

    method SaveSession(sid: Sid, session: Session)
      requires sid in cells
      modifies this
      ensures cells == old(cells)[sid := old(cells)[sid].(row := Some(session))]
    {
      cells := cells[sid := cells[sid].(row := Some(session))];
    }

    method EndTask(sid: Sid, id: nat)
      requires sid in cells
      modifies this
      ensures cells == old(cells)[sid := Done(old(cells)[sid], id)]
    {
      cells := cells[sid := cells[sid].(tasks := cells[sid].tasks - {id})];
    }

    /** A worker picks a task up: a deleted session is skipped, and a provision task's terminated one. */
    method PickUp(sid: Sid, id: nat) returns (go: bool)
      requires sid in cells && id in cells[sid].tasks && cells[sid].tasks[id].phase == Queued
      modifies this
      ensures cells == Apply(old(cells), Worker(sid, id, Fetch))
      ensures var c, d := old(cells)[sid], cells[sid];
              && OnlyThis(old(cells), cells, sid) && d.row == c.row && d.destroys == c.destroys
              && (go <==> c.row.Some? && !(c.tasks[id].job == ProvisionJob && c.row.value.status == Terminated))
              && d.tasks == if go then c.tasks[id := c.tasks[id].(phase := Fetched)] else c.tasks - {id}
    {
      var task := cells[sid].tasks[id];
      if cells[sid].row.None? {
        EndTask(sid, id);
        return false;
      }
      if task.job == ProvisionJob && cells[sid].row.value.status == Terminated {
        EndTask(sid, id);
        return false;
      }
      var c := cells[sid];
      cells := cells[sid := c.(tasks := c.tasks[id := task.(phase := Fetched)])];
      return true;
    }

    /** The provision task's last act: execute_turn is enqueued for the same turn in the same mode. */
    method HandOut(sid: Sid, id: nat)
      requires sid in cells && id in cells[sid].tasks
      requires cells[sid].tasks[id].phase == Fetched && cells[sid].tasks[id].job == ProvisionJob
      modifies this
      ensures cells == Apply(old(cells), Worker(sid, id, ProvisionDone))
      ensures var c, d := old(cells)[sid], cells[sid];
              && OnlyThis(old(cells), cells, sid) && d.row == c.row && d.destroys == c.destroys
              && d.tasks == (c.tasks - {id})[c.next := Task(TurnJob, c.tasks[id].turn, c.tasks[id].mode, Queued)]
    {
      var c := cells[sid];
      var task := c.tasks[id];
      c := c.(tasks := c.tasks - {id});
      c := c.(tasks := c.tasks[c.next := Task(TurnJob, task.turn, task.mode, Queued)], next := c.next + 1);
      c := c.(handed := c.handed + [(task.turn, task.mode)]);
      cells := cells[sid := c];
    }

    /** A provision or pre-run failure: the session fails unless it was terminated, the turn always does. */
    method FailTaskRows(sid: Sid, id: nat)
      requires sid in cells && id in cells[sid].tasks && cells[sid].tasks[id].phase == Fetched
      modifies this
      ensures cells == ApplyGroup(old(cells), FailTask(sid, id))
      ensures OnlyThis(old(cells), cells, sid)
      ensures var c, d := old(cells)[sid], cells[sid];
              && d.tasks == c.tasks - {id} && d.destroys == c.destroys
              && (c.row.None? ==> d.row.None?)
              && (c.row.Some? ==> d.row.Some? && FailedBy(c.tasks[id], c.row.value, d.row.value))
    {
      ghost var start := cells;
      GroupRunsThreeSteps(start, FailTask(sid, id));
      GroupIsAtomic(start[sid], FailTask(sid, id));
      var task := cells[sid].tasks[id];
      if cells[sid].row.None? {
        EndTask(sid, id);
        return;
      }
      var session := cells[sid].row.value;
      if session.status != Terminated {
        session := session.(status := Failed);
        if task.job.ProvisionJob? {
          session := session.(handle := "");
        }
        SaveSession(sid, session);
      }
      if task.turn < |session.turns| {
        var turn := session.turns[task.turn].(status := Failed);
        session := session.(turns := session.turns[task.turn := turn]);
        SaveSession(sid, session);
      }
      EndTask(sid, id);
    }
  }

  /** Turn k has this status and exit code, and the other turns are as they were. */
  predicate OnlyTurn(before: seq<Turn>, after: seq<Turn>, k: nat, status: Status, exitCode: Option<int>) {
    && |after| == |before|
    && (forall j | 0 <= j < |before| && j != k :: after[j] == before[j])
    && (k < |before| ==> after[k] == Turn(before[k].number, status, exitCode))
  }

  function CodeOf(turns: seq<Turn>, k: nat): Option<int> {
    if k < |turns| then turns[k].exitCode else None
  }

  /** The session has failed unless it was terminated, its turn has; a failed provisioning leaves no handle. */
  predicate FailedBy(task: Task, s: Session, t: Session) {
    && t.status == (if s.status == Terminated then Terminated else Failed)
    && t.exitCode == s.exitCode && t.user == s.user
    && t.handle == (if s.status != Terminated && task.job == ProvisionJob then "" else s.handle)
    && OnlyTurn(s.turns, t.turns, task.turn, Failed, CodeOf(s.turns, task.turn))
  }

  /** The session is running, and so is its turn; nothing else has changed. */
  predicate StartedWith(s: Session, t: Session, turn: nat) {
    && t.status == Running && t.exitCode == s.exitCode && t.handle == s.handle && t.user == s.user
    && OnlyTurn(s.turns, t.turns, turn, Running, CodeOf(s.turns, turn))
  }

  /** A terminated session stays as it is, and its turn fails. */
  predicate AbortedWith(s: Session, t: Session, turn: nat) {
    && t.status == Terminated && t.exitCode == s.exitCode && t.handle == s.handle && t.user == s.user
    && OnlyTurn(s.turns, t.turns, turn, Failed, CodeOf(s.turns, turn))
  }

  /** Completed exactly for exit code 0; the exit code is recorded if there was an exit, whatever it is. */
  function StatusFor(outcome: CommandResult): Status {
    if outcome == Exit(0) then Completed else Failed
  }

  function CodeFor(outcome: CommandResult): Option<int> {
    if outcome.Exit? then Some(outcome.code) else None
  }

  /** The turn has the outcome; so has the session, unless it was terminated. */
  predicate FinishedWith(s: Session, t: Session, turn: nat, outcome: CommandResult) {
    && t.status == (if s.status == Terminated then Terminated else StatusFor(outcome))
    && t.exitCode == (if s.status == Terminated then s.exitCode else CodeFor(outcome))
    && t.handle == s.handle && t.user == s.user
    && OnlyTurn(s.turns, t.turns, turn, StatusFor(outcome), CodeFor(outcome))
  }

  /** The task is gone, and session and turn carry the outcome's status and exit code. */
  predicate EndedWith(c: Cell, id: nat, turn: nat, outcome: CommandResult) {
    && id !in c.tasks && c.row.Some?
    && c.row.value.status == StatusFor(outcome) && c.row.value.exitCode == CodeFor(outcome)
    && (turn < |c.row.value.turns| ==>
          && c.row.value.turns[turn].status == StatusFor(outcome)
          && c.row.value.turns[turn].exitCode == CodeFor(outcome))
  }

  lemma {:induction false} TurnEnds(s: State, sid: Sid, id: nat, outcome: CommandResult)
    requires sid in s && id in s[sid].tasks && s[sid].tasks[id].phase == Fetched && s[sid].tasks[id].job == TurnJob
    requires s[sid].row.Some? && s[sid].row.value.status != Terminated
    ensures var end := ApplyGroup(ApplyGroup(s, StartTurn(sid, id)), FinishTurn(sid, id, outcome));
            sid in end && EndedWith(end[sid], id, s[sid].tasks[id].turn, outcome)
  {
    var begun := ApplyGroup(s, StartTurn(sid, id));
    GroupRunsThreeSteps(s, StartTurn(sid, id));
    GroupIsAtomic(s[sid], StartTurn(sid, id));
    assert begun[sid] == StartCell(s[sid], id);
    GroupRunsThreeSteps(begun, FinishTurn(sid, id, outcome));
    GroupIsAtomic(begun[sid], FinishTurn(sid, id, outcome));
    CellEnds(s[sid], id, outcome);
  }

  lemma {:induction false} CellEnds(c: Cell, id: nat, outcome: CommandResult)
    requires id in c.tasks && c.tasks[id].phase == Fetched && c.tasks[id].job == TurnJob
    requires c.row.Some? && c.row.value.status != Terminated
    ensures EndedWith(FinishCell(StartCell(c, id), id, outcome), id, c.tasks[id].turn, outcome)
  {
  }

  /** One turn against a resumed handle; `status` is the executor's own copy of the session's status column. */
  class TurnExecutor {
    const tables: Tables
    const sid: Sid
    const id: nat
    var status: Status
    var results: seq<CommandResult>

    constructor (tables: Tables, sid: Sid, id: nat)
      requires sid in tables.cells && tables.cells[sid].row.Some?
      ensures this.tables == tables && this.sid == sid && this.id == id && results == []
      ensures status == tables.cells[sid].row.value.status
    {
      this.tables, this.sid, this.id, results := tables, sid, id, [];
      status := tables.cells[sid].row.value.status;
    }

    ghost predicate At(phase: Phase)
      reads this, tables
    {
      sid in tables.cells && id in tables.cells[sid].tasks && tables.cells[sid].tasks[id].phase == phase
    }

    /** The guard before the turn and the saves it guards; false when the turn was aborted. */
    method Begin() returns (running: bool)
      requires At(Fetched) && tables.cells[sid].tasks[id].job == TurnJob
      modifies this, tables
      ensures tables.cells == ApplyGroup(old(tables.cells), StartTurn(sid, id))
      ensures running <==> old(tables.cells)[sid].row.Some? && old(tables.cells)[sid].row.value.status != Terminated
      ensures running ==> At(Executing)
      ensures results == old(results)
      ensures OnlyThis(old(tables.cells), tables.cells, sid)
      ensures var c, d := old(tables.cells)[sid], tables.cells[sid];
              && d.destroys == c.destroys
              && (c.row.None? ==> d.row.None?)
              && (c.row.Some? ==>
                    d.row.Some?
                    && if running then StartedWith(c.row.value, d.row.value, c.tasks[id].turn)
                       else AbortedWith(c.row.value, d.row.value, c.tasks[id].turn))
              && d.tasks == if running then c.tasks[id := c.tasks[id].(phase := Executing)] else c.tasks - {id}
    {
      ghost var start := tables.cells;
      GroupRunsThreeSteps(start, StartTurn(sid, id));
      GroupIsAtomic(start[sid], StartTurn(sid, id));
      if tables.cells[sid].row.None? {
        tables.EndTask(sid, id);
        return false;
      }
      var session := tables.cells[sid].row.value;
      var k := tables.cells[sid].tasks[id].turn;
      status := session.status;
      if status == Terminated {
        if k < |session.turns| {
          tables.SaveSession(sid, session.(turns := session.turns[k := session.turns[k].(status := Failed)]));
        }
        tables.EndTask(sid, id);
        return false;
      }
      status := Running;
      session := session.(status := status);
      tables.SaveSession(sid, session);
      if k < |session.turns| {
        tables.SaveSession(sid, session.(turns := session.turns[k := session.turns[k].(status := Running)]));
      }
      var c := tables.cells[sid];
      tables.cells := tables.cells[sid := c.(tasks := c.tasks[id := c.tasks[id].(phase := Executing)])];
      return true;
    }

    /** What the turn is finished with. */
    function Recorded(): CommandResult
      reads this
    {
      if results == [] then NoResult else results[0]
    }

    /** Whether or not the command thread got to record its outcome, the turn is finished with that outcome. */
    method RunCommand(outcome: CommandResult)
      requires results == []
      modifies this`results
      ensures Recorded() == outcome && |results| <= 1
    {
      if outcome != NoResult {
        results := results + [outcome];
      }
    }

    /** `run`, with nothing else happening to the session: the command's outcome is the session's and the turn's. */
    method RunTurn(outcome: CommandResult) returns (ran: bool)
      requires At(Fetched) && tables.cells[sid].tasks[id].job == TurnJob && results == []
      modifies this, tables
      ensures ran <==> old(tables.cells)[sid].row.Some? && old(tables.cells)[sid].row.value.status != Terminated
      ensures !ran ==> tables.cells == ApplyGroup(old(tables.cells), StartTurn(sid, id))
      ensures ran ==>
                sid in tables.cells
                && EndedWith(tables.cells[sid], id, old(tables.cells[sid].tasks[id].turn), outcome)
    {
      ghost var start := tables.cells;
      ran := Begin();
      if !ran {
        return;
      }
      RunCommand(outcome);
      TurnEnds(start, sid, id, outcome);
      Finalize();
    }

    method Finalize()
      requires At(Executing)
      modifies this`status, tables
      ensures tables.cells == ApplyGroup(old(tables.cells), FinishTurn(sid, id, Recorded()))
      ensures OnlyThis(old(tables.cells), tables.cells, sid)
      ensures var c, d := old(tables.cells)[sid], tables.cells[sid];
              && d.destroys == c.destroys
              && d.tasks == c.tasks - {id} && (c.row.None? ==> d.row.None?)
              && (c.row.Some? ==>
                    d.row.Some? && FinishedWith(c.row.value, d.row.value, c.tasks[id].turn, Recorded()))
    {
      var result := Recorded();
      ghost var start := tables.cells;
      GroupRunsThreeSteps(start, FinishTurn(sid, id, result));
      GroupIsAtomic(start[sid], FinishTurn(sid, id, result));
      var (final, code) := FinalStatus(result);
      if tables.cells[sid].row.None? {
        tables.EndTask(sid, id);
        return;
      }
      var session := tables.cells[sid].row.value;
      var k := tables.cells[sid].tasks[id].turn;
      status := session.status;
      if status != Terminated {
        status := final;
        session := session.(status := final, exitCode := code);
        tables.SaveSession(sid, session);
      }
      if k < |session.turns| {
        var turn := session.turns[k].(status := final, exitCode := code);
        tables.SaveSession(sid, session.(turns := session.turns[k := turn]));
      }
      tables.EndTask(sid, id);
    }
  }
}
