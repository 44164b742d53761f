/**
 The session/turn protocol: session rows, turn rows, queued and running worker
 tasks and enqueued destroys, as a transition system.

 Web requests are single steps, because each one runs under a row lock in one
 transaction. A worker task refreshes a row and saves it later, so every
 refresh and every save is a step of its own here. `Group` names the runs of
 worker steps that the protocol needs to be uninterrupted; `Joint` and the
 theorems of JointInvariant, which need it, say so by taking groups.
 */
module Protocol {
  import opened Prelude

  type Sid = nat

  datatype Status = Pending | Running | Completed | Failed | Terminated

  datatype Turn = Turn(number: nat, status: Status, exitCode: Option<int>)

  datatype Session = Session(
    user: nat,
    status: Status,
    exitCode: Option<int>,
    handle: string,
    turns: seq<Turn>)

  /** What the command thread leaves in the result holder. */
  datatype CommandResult = NoResult | Exit(code: int) | Error | Malformed

  datatype Mode = Run | Continue

  datatype Job = ProvisionJob | TurnJob

  /** Where a task stands between two of its database accesses. */
  datatype Phase =
    | Queued
    | Fetched
    | StartRead(seen: Status)
    | StartSaved
    | Executing
    | FinishRead(seen: Status, final: Status, code: Option<int>)
    | FinishSaved(final: Status, code: Option<int>)
    | FailRead(seen: Status)
    | FailSaved

  datatype Task = Task(job: Job, turn: nat, mode: Mode, phase: Phase)

  /**
   Everything the three tables hold about one session id. `created`, `handed`
   and `lost` are history: turns ever created, execute_turn tasks ever enqueued,
   and whether a task died without finishing.
   */
  datatype Cell = Cell(
    name: string,
    row: Option<Session>,
    tasks: map<nat, Task>,
    next: nat,
    destroys: seq<string>,
    created: nat,
    handed: seq<(nat, Mode)>,
    lost: bool)

  type State = map<Sid, Cell>

  /** One database access (or task outcome) of the worker. */
  datatype Action =
    | Fetch
    | ProvisionDone
    | ReadForFail
    | SaveFailSession
    | SaveFailTurn
    | ReadForStart
    | SaveStart
    | SaveStartTurn
    | ReadForFinish(result: CommandResult)
    | SaveFinish
    | SaveFinishTurn
    | Crash

  datatype Step =
    | Create(sid: Sid, user: nat, name: string, limit: nat)
    | Prompt(sid: Sid)
    | Terminate(sid: Sid)
    | Delete(sid: Sid)
    | Worker(sid: Sid, id: nat, action: Action)

  // ---- Guards (session_state.py) and the final status (turn/outcome.py) ----

  predicate CanAcceptPrompt(status: Status) {
    status !in {Running, Terminated, Failed}
  }

  predicate CanTerminate(status: Status) {
    status != Terminated
  }

  predicate CanDelete(status: Status) {
    status !in {Running, Pending}
  }

  function FinalStatus(result: CommandResult): (r: (Status, Option<int>))
    ensures r.0 == Completed <==> result == Exit(0)
    ensures r.0 in {Completed, Failed}
    ensures result.Exit? ==> r.1 == Some(result.code)
    ensures !result.Exit? ==> r.1 == None
  {
    match result
    case NoResult => (Failed, None)
    case Error => (Failed, None)
    case Malformed => (Failed, None)
    case Exit(code) => if code == 0 then (Completed, Some(0)) else (Failed, Some(code))
  }

  predicate Active(status: Status) {
    status in {Pending, Running}
  }

  predicate ActiveFor(c: Cell, user: nat) {
    c.row.Some? && c.row.value.user == user && Active(c.row.value.status)
  }

  function ActiveSessions(s: State, user: nat): set<Sid> {
    set sid | sid in s && ActiveFor(s[sid], user)
  }

  // ---- Web requests ----

  function NewCell(user: nat, name: string): Cell {
    Cell(name,
         Some(Session(user, Pending, None, name, [Turn(1, Pending, None)])),
         map[0 := Task(ProvisionJob, 0, Run, Queued)], 1, [], 1, [], false)
  }

  /** max(turn_number) over the session's turns, or 0. */
  function MaxTurnNumber(turns: seq<Turn>): nat {
    if turns == [] then 0 else Max(MaxTurnNumber(turns[..|turns| - 1]), turns[|turns| - 1].number)
  }

  function PromptCell(c: Cell): Cell {
    if c.row.None? then c
    else
      var s := c.row.value;
      if !CanAcceptPrompt(s.status) || s.status == Pending then c
      else
        var turn := Turn(MaxTurnNumber(s.turns) + 1, Pending, None);
        c.(row := Some(s.(turns := s.turns + [turn], status := Pending, exitCode := None)),
           tasks := c.tasks[c.next := Task(TurnJob, |s.turns|, Continue, Queued)],
           next := c.next + 1,
           created := c.created + 1,
           handed := c.handed + [(|s.turns|, Continue)])
  }

  function EnqueueDestroy(c: Cell, handle: string): Cell {
    if handle == "" then c else c.(destroys := c.destroys + [handle])
  }

  function TerminateCell(c: Cell): Cell {
    if c.row.None? || !CanTerminate(c.row.value.status) then c
    else
      var s := c.row.value;
      EnqueueDestroy(c.(row := Some(s.(status := Terminated, handle := ""))), s.handle)
  }

  function DeleteCell(c: Cell): Cell {
    if c.row.None? || !CanDelete(c.row.value.status) then c
    else EnqueueDestroy(c.(row := None), c.row.value.handle)
  }

  // ---- Worker accesses ----

  function Done(c: Cell, id: nat): Cell {
    c.(tasks := c.tasks - {id})
  }

  function Advance(c: Cell, id: nat, phase: Phase): Cell
    requires id in c.tasks
  {
    c.(tasks := c.tasks[id := c.tasks[id].(phase := phase)])
  }

  function SetTurn(s: Session, k: nat, status: Status, code: Option<int>): Session {
    if k < |s.turns| then s.(turns := s.turns[k := s.turns[k].(status := status, exitCode := code)]) else s
  }

  function SetTurnStatus(s: Session, k: nat, status: Status): Session {
    if k < |s.turns| then SetTurn(s, k, status, s.turns[k].exitCode) else s
  }

  function Fetching(c: Cell, id: nat): Cell
    requires id in c.tasks
  {
    var t := c.tasks[id];
    if t.phase != Queued then c
    else if c.row.None? || (t.job.ProvisionJob? && c.row.value.status == Terminated) then Done(c, id)
    else Advance(c, id, Fetched)
  }

  /** Provisioning succeeded: the task ends by enqueueing execute_turn for the same turn. */
  function HandingOut(c: Cell, id: nat): Cell
    requires id in c.tasks
  {
    var t := c.tasks[id];
    if t.phase != Fetched || t.job != ProvisionJob then c
    else c.(tasks := (c.tasks - {id})[c.next := Task(TurnJob, t.turn, t.mode, Queued)],
            next := c.next + 1,
            handed := c.handed + [(t.turn, t.mode)])
  }

  function ReadingForFail(c: Cell, id: nat): Cell
    requires id in c.tasks
  {
    if c.tasks[id].phase != Fetched then c
    else if c.row.None? then Done(c, id)
    else Advance(c, id, FailRead(c.row.value.status))
  }

  function SavingFailSession(c: Cell, id: nat): Cell
    requires id in c.tasks
  {
    var t := c.tasks[id];
    if !t.phase.FailRead? then c
    else if t.phase.seen == Terminated then Advance(c, id, FailSaved)
    else if c.row.None? then Done(c, id)
    else
      var s := c.row.value;
      var saved := if t.job.ProvisionJob? then s.(status := Failed, handle := "") else s.(status := Failed);
      Advance(c.(row := Some(saved)), id, FailSaved)
  }

  function SavingFailTurn(c: Cell, id: nat): Cell
    requires id in c.tasks
  {
    var t := c.tasks[id];
    if t.phase != FailSaved then c
    else if c.row.None? then Done(c, id)
    else Done(c.(row := Some(SetTurnStatus(c.row.value, t.turn, Failed))), id)
  }

  function ReadingForStart(c: Cell, id: nat): Cell
    requires id in c.tasks
  {
    var t := c.tasks[id];
    if t.phase != Fetched || t.job != TurnJob then c
    else if c.row.None? then Done(c, id)
    else Advance(c, id, StartRead(c.row.value.status))
  }

  function SavingStart(c: Cell, id: nat): Cell
    requires id in c.tasks
  {
    var t := c.tasks[id];
    if !t.phase.StartRead? then c
    else if c.row.None? then Done(c, id)
    else if t.phase.seen == Terminated then Done(c.(row := Some(SetTurnStatus(c.row.value, t.turn, Failed))), id)
    else Advance(c.(row := Some(c.row.value.(status := Running))), id, StartSaved)
  }

  function SavingStartTurn(c: Cell, id: nat): Cell
    requires id in c.tasks
  {
    var t := c.tasks[id];
    if t.phase != StartSaved then c
    else if c.row.None? then Done(c, id)
    else Advance(c.(row := Some(SetTurnStatus(c.row.value, t.turn, Running))), id, Executing)
  }

  function ReadingForFinish(c: Cell, id: nat, result: CommandResult): Cell
    requires id in c.tasks
  {
    if c.tasks[id].phase != Executing then c
    else if c.row.None? then Done(c, id)
    else
      var (final, code) := FinalStatus(result);
      Advance(c, id, FinishRead(c.row.value.status, final, code))
  }

  function SavingFinish(c: Cell, id: nat): Cell
    requires id in c.tasks
  {
    var p := c.tasks[id].phase;
    if !p.FinishRead? then c
    else if p.seen == Terminated then Advance(c, id, FinishSaved(p.final, p.code))
    else if c.row.None? then Done(c, id)
    else Advance(c.(row := Some(c.row.value.(status := p.final, exitCode := p.code))), id, FinishSaved(p.final, p.code))
  }

  function SavingFinishTurn(c: Cell, id: nat): Cell
    requires id in c.tasks
  {
    var t := c.tasks[id];
    if !t.phase.FinishSaved? then c
    else if c.row.None? then Done(c, id)
    else Done(c.(row := Some(SetTurn(c.row.value, t.turn, t.phase.final, t.phase.code))), id)
  }

  /** One worker access; an access the task is not ready for changes nothing. */
  function WorkerStep(c: Cell, id: nat, action: Action): Cell {
    if id !in c.tasks then c
    else
      match action
      case Fetch => Fetching(c, id)
      case ProvisionDone => HandingOut(c, id)
      case ReadForFail => ReadingForFail(c, id)
      case SaveFailSession => SavingFailSession(c, id)
      case SaveFailTurn => SavingFailTurn(c, id)
      case ReadForStart => ReadingForStart(c, id)
      case SaveStart => SavingStart(c, id)
      case SaveStartTurn => SavingStartTurn(c, id)
      case ReadForFinish(result) => ReadingForFinish(c, id, result)
      case SaveFinish => SavingFinish(c, id)
      case SaveFinishTurn => SavingFinishTurn(c, id)
      case Crash => Done(c, id).(lost := true)
  }

  // ---- The whole system ----

  /** Backend handle names are random and never reused. */
  predicate FreshName(s: State, name: string) {
    name != "" && forall sid | sid in s :: s[sid].name != name
  }

  /** A request or a worker access on an existing session. */
  function StepCell(c: Cell, step: Step): Cell {
    match step
    case Create(_, _, _, _) => c
    case Prompt(_) => PromptCell(c)
    case Terminate(_) => TerminateCell(c)
    case Delete(_) => DeleteCell(c)
    case Worker(_, id, action) => WorkerStep(c, id, action)
  }

  /** The quota check and the insert run in one transaction that holds the user's quota row. */
  predicate CanCreate(s: State, sid: Sid, user: nat, name: string, limit: nat) {
    sid !in s && FreshName(s, name) && |ActiveSessions(s, user)| < limit
  }

  function Apply(s: State, step: Step): State {
    if step.Create? then
      if CanCreate(s, step.sid, step.user, step.name, step.limit)
      then s[step.sid := NewCell(step.user, step.name)]
      else s
    else if step.sid in s then s[step.sid := StepCell(s[step.sid], step)]
    else s
  }

  function RunSteps(s: State, steps: seq<Step>): State {
    Fold(Apply, s, steps)
  }

  /** Worker steps that the protocol runs as one: a guard and the saves it guards. */
  datatype Group =
    | Single(step: Step)
    | StartTurn(sid: Sid, id: nat)
    | FinishTurn(sid: Sid, id: nat, result: CommandResult)
    | FailTask(sid: Sid, id: nat)

  function Actions(g: Group): seq<Action>
    requires !g.Single?
  {
    match g
    case StartTurn(_, _) => [ReadForStart, SaveStart, SaveStartTurn]
    case FinishTurn(_, _, result) => [ReadForFinish(result), SaveFinish, SaveFinishTurn]
    case FailTask(_, _) => [ReadForFail, SaveFailSession, SaveFailTurn]
  }

  /** A single step that belongs to no guarded group. */
  predicate Groupable(step: Step) {
    step.Worker? ==> step.action in {Fetch, ProvisionDone, Crash}
  }

  predicate WellGrouped(gs: seq<Group>) {
    forall g | g in gs && g.Single? :: Groupable(g.step)
  }

  function Expand(g: Group): seq<Step> {
    if g.Single? then [g.step]
    else
      var actions := Actions(g);
      seq(3, i requires 0 <= i < 3 => Worker(g.sid, g.id, actions[i]))
  }

  function ApplyGroup(s: State, g: Group): State {
    RunSteps(s, Expand(g))
  }

  function RunGroups(s: State, gs: seq<Group>): State {
    Fold(ApplyGroup, s, gs)
  }
}
