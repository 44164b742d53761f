/**
 Provisioning: the stages in their order, the rows they write and the cleanup
 after a failure (provisioning/orchestrator.py, provisioning/events.py,
 provisioning/stages.py).
 */
module Provisioning {
  import opened Prelude

  datatype Stage =
    | CreateSprite
    | InstallRuntime
    | NetworkPolicy
    | EnvFile
    | GitCredentials
    | ProvisionSetup
    | RuntimeConfig
    | Skills

  /** The stages after the handle exists, in order. */
  const SETUP_STAGES: seq<Stage> :=
    [InstallRuntime, NetworkPolicy, EnvFile, GitCredentials, ProvisionSetup, RuntimeConfig, Skills]

  /** The names a ProvisionError carries: a stage's own, or "unknown". */
  datatype Tag = At(stage: Stage) | UnknownStage

  datatype Exn = ProvisionError(tag: Tag) | BackendError | SpriteError | NoBackendCredentials | OtherError

  datatype State = Started | Done | Failed

  datatype StageRow = StageRow(stage: Stage, state: State)

  /** Which of a stage's two rows the database refuses, if any. */
  datatype Fault = NoFault | FirstWrite | SecondWrite

  /** What one stage does: nothing, raise before its timer starts, or run its body between two rows. */
  datatype Behaviour = Skips | RaisesEarly(early: Exn) | Runs(raised: Option<Exn>, fault: Fault)

  /** Stages that can find nothing to do. */
  predicate CanSkip(stage: Stage) {
    stage in {NetworkPolicy, GitCredentials, Skills}
  }

  /** Stages that compute something before their timer starts. */
  predicate CanRaiseEarly(stage: Stage) {
    stage in {NetworkPolicy, EnvFile, GitCredentials, ProvisionSetup, Skills}
  }

  /** Which backend errors a stage turns into its own ProvisionError. */
  predicate Wraps(stage: Stage, e: Exn) {
    e.BackendError? || (e.SpriteError? && stage in {InstallRuntime, RuntimeConfig})
  }

  function Wrapped(stage: Stage, e: Exn): Exn {
    if Wraps(stage, e) then ProvisionError(At(stage)) else e
  }

  /** Everything outside: whether a client can be had, what each stage does, and what destroying does. */
  datatype World = World(configured: bool, behaviour: Stage -> Behaviour, destroyRaises: Option<Exn>)

  ghost predicate ValidWorld(w: World) {
    && w.behaviour(CreateSprite).Runs?
    && forall s :: (w.behaviour(s).Skips? ==> CanSkip(s)) && (w.behaviour(s).RaisesEarly? ==> CanRaiseEarly(s))
  }

  // ---- The stages as a function ----

  function RowsOf(stage: Stage, b: Behaviour): seq<StageRow> {
    match b
    case Skips => []
    case RaisesEarly(_) => []
    case Runs(raised, fault) =>
      match fault
      case NoFault => [StageRow(stage, Started), StageRow(stage, if raised.None? then Done else Failed)]
      case FirstWrite => []
      case SecondWrite => [StageRow(stage, Started)]
  }

  /** What a stage raises, before any wrapping; a refused row takes the place of what its body raised. */
  function Raised(b: Behaviour): Option<Exn> {
    match b
    case Skips => None
    case RaisesEarly(e) => Some(e)
    case Runs(raised, fault) => if fault == NoFault then raised else Some(OtherError)
  }

  /** ... which is wrapped inside its timer only. */
  function FailureOf(stage: Stage, b: Behaviour): Option<Exn> {
    if Raised(b).None? || b.RaisesEarly? then Raised(b) else Some(Wrapped(stage, Raised(b).value))
  }

  /** The creation's body succeeded: there is a sandbox, whatever became of the rows. */
  predicate Creates(w: World) {
    w.configured && var b := w.behaviour(CreateSprite); b.Runs? && b.raised.None? && b.fault != FirstWrite
  }

  datatype Outcome = Outcome(rows: seq<StageRow>, failure: Option<Exn>)

  /** The stages one after another, up to the first failure. */
  function RunStages(stages: seq<Stage>, behaviour: Stage -> Behaviour): Outcome {
    if stages == [] then Outcome([], None)
    else
      var b := behaviour(stages[0]);
      if FailureOf(stages[0], b).Some? then Outcome(RowsOf(stages[0], b), FailureOf(stages[0], b))
      else
        var rest := RunStages(stages[1..], behaviour);
        Outcome(RowsOf(stages[0], b) + rest.rows, rest.failure)
  }

  /** How a provisioning ends. */
  datatype Provisioned = Provisioned(rows: seq<StageRow>, created: bool, destroys: nat, raised: Option<Exn>)

  predicate Typed(e: Exn) {
    e.ProvisionError? || e.BackendError? || e.SpriteError?
  }

  /** What cleanup raises in the end: a BackendError of the destroy call is swallowed, any other error takes over. */
  function AfterCleanup(w: World, e: Exn): Exn {
    if w.destroyRaises.Some? && !w.destroyRaises.value.BackendError? then w.destroyRaises.value
    else if e.ProvisionError? then e
    else ProvisionError(UnknownStage)
  }

  function Provision(w: World): Provisioned {
    ProvisionWith(SETUP_STAGES, w)
  }

  function ProvisionWith(stages: seq<Stage>, w: World): Provisioned {
    if !w.configured then Provisioned([], false, 0, Some(NoBackendCredentials))
    else
      var create := RunStages([CreateSprite], w.behaviour);
      if create.failure.Some? then Provisioned(create.rows, Creates(w), 0, create.failure)
      else
        var setup := RunStages(stages, w.behaviour);
        var rows := create.rows + setup.rows;
        if setup.failure.None? then Provisioned(rows, true, 0, None)
        else if Typed(setup.failure.value) then Provisioned(rows, true, 1, Some(AfterCleanup(w, setup.failure.value)))
        else Provisioned(rows, true, 0, setup.failure)
  }

  // ---- The methods ----

  class Provisioner {
    const world: World
    /** The session's stage rows; written only for a real session. */
    var rows: seq<StageRow>
    var destroys: nat

    constructor (world: World)
      ensures rows == [] && destroys == 0 && this.world == world
    {
      this.world, rows, destroys := world, [], 0;
    }

    method EmitStageEvent(stage: Stage, state: State, refused: bool) returns (raised: Option<Exn>)
      modifies this`rows
      ensures rows == if refused then old(rows) else old(rows) + [StageRow(stage, state)]
      ensures raised == if refused then Some(OtherError) else None
    {
      if refused {
        return Some(OtherError);
      }
      rows := rows + [StageRow(stage, state)];
      return None;
    }

    /** A stage helper with its timer: `started`, the body, then `done` or `failed`. */
    method RunStage(stage: Stage) returns (failure: Option<Exn>)
      modifies this`rows
      ensures failure == FailureOf(stage, world.behaviour(stage))
      ensures rows == old(rows) + RowsOf(stage, world.behaviour(stage))
    {
      var b := world.behaviour(stage);
      if b.Skips? {
        return None;
      }
      if b.RaisesEarly? {
        return Some(b.early);
      }
      var other := EmitStageEvent(stage, Started, b.fault == FirstWrite);
      if other.Some? {
        return other;
      }
      other := EmitStageEvent(stage, if b.raised.None? then Done else Failed, b.fault == SecondWrite);
      if other.Some? || b.raised.None? {
        return other;
      }
      return Some(Wrapped(stage, b.raised.value));
    }

    /** Stage calls in a row; the first that raises ends them. */
    method RunBlock(stages: seq<Stage>) returns (failure: Option<Exn>)
      modifies this`rows
      ensures Outcome(rows, failure) == Prefixed(old(rows), RunStages(stages, world.behaviour))
    {
      ghost var start := rows;
      failure := None;
      for i := 0 to |stages|
        invariant failure == None
        invariant Prefixed(rows, RunStages(stages[i..], world.behaviour))
                  == Prefixed(start, RunStages(stages, world.behaviour))
      {
        FirstStage(stages[i..], world.behaviour, rows);
        assert stages[i..][1..] == stages[i + 1..];
        failure := RunStage(stages[i]);
        if failure.Some? {
          return;
        }
      }
      assert stages[|stages|..] == [];
    }

    method BestEffortDelete() returns (raised: Option<Exn>)
      modifies this`destroys
      ensures destroys == old(destroys) + 1
      ensures raised != Some(BackendError) && (raised.Some? ==> raised == world.destroyRaises)
      ensures raised.None? ==> world.destroyRaises.None? || world.destroyRaises == Some(BackendError)
    {
      destroys := destroys + 1;
      raised := if world.destroyRaises == Some(BackendError) then None else world.destroyRaises;
    }

    /** The two except clauses of the setup block. */
    method CleanUp(e: Exn) returns (raised: Exn)
      modifies this`destroys
      ensures destroys == old(destroys) + (if Typed(e) then 1 else 0)
      ensures raised == if Typed(e) then AfterCleanup(world, e) else e
    {
      raised := e;
      if e.ProvisionError? {
        var other := BestEffortDelete();
        if other.Some? {
          raised := other.value;
        }
      } else if e.BackendError? || e.SpriteError? {
        var other := BestEffortDelete();
        raised := if other.Some? then other.value else ProvisionError(UnknownStage);
      }
    }

    method ProvisionSession() returns (created: bool, raised: Option<Exn>)
      requires rows == [] && destroys == 0
      modifies this
      ensures Provisioned(rows, created, destroys, raised) == Provision(world)
    {
      created, raised := RunAndCleanUp(SETUP_STAGES);
    }

    method RunAndCleanUp(stages: seq<Stage>) returns (created: bool, raised: Option<Exn>)
      requires rows == [] && destroys == 0
      modifies this
      ensures Provisioned(rows, created, destroys, raised) == ProvisionWith(stages, world)
    {
      if !world.configured {
        return false, Some(NoBackendCredentials);
      }
      raised := RunBlock([CreateSprite]);
      if raised.Some? {
        return Creates(world), raised;
      }
      raised := RunBlock(stages);
      if raised.Some? {
        var e := CleanUp(raised.value);
        raised := Some(e);
      }
      return true, raised;
    }
  }

  function Prefixed(before: seq<StageRow>, o: Outcome): Outcome {
    Outcome(before + o.rows, o.failure)
  }

  lemma FirstStage(stages: seq<Stage>, behaviour: Stage -> Behaviour, before: seq<StageRow>)
    requires stages != []
    ensures var b := behaviour(stages[0]);
            Prefixed(before, RunStages(stages, behaviour)) ==
            if FailureOf(stages[0], b).Some? then Outcome(before + RowsOf(stages[0], b), FailureOf(stages[0], b))
            else Prefixed(before + RowsOf(stages[0], b), RunStages(stages[1..], behaviour))
  {
  }

  // ---- The trace ----

  function Index(stage: Stage): nat {
    match stage
    case CreateSprite => 0
    case InstallRuntime => 1
    case NetworkPolicy => 2
    case EnvFile => 3
    case GitCredentials => 4
    case ProvisionSetup => 5
    case RuntimeConfig => 6
    case Skills => 7
  }

  ghost predicate InOrder(stages: seq<Stage>, from: nat) {
    (forall i | 0 <= i < |stages| :: from <= Index(stages[i]))
    && forall i, j | 0 <= i < j < |stages| :: Index(stages[i]) < Index(stages[j])
  }

  /**
   Rows come in pairs, started then done or failed, of later and later stages;
   only the last pair may have failed, and only the last row may stand alone.
   */
  predicate Bracketed(rows: seq<StageRow>, from: nat) {
    rows == [] ||
    (&& rows[0].state == Started && from <= Index(rows[0].stage)
     && (|rows| == 1 ||
         (&& rows[1].stage == rows[0].stage && rows[1].state != Started
          && (rows[1].state == Failed ==> |rows| == 2)
          && Bracketed(rows[2..], Index(rows[0].stage) + 1))))
  }

  predicate EndsInFailure(rows: seq<StageRow>) {
    rows != [] && rows[|rows| - 1].state == Failed
  }

  predicate EndsOpen(rows: seq<StageRow>) {
    rows != [] && rows[|rows| - 1].state == Started
  }

  /** The first stage that fails does so in its body. */
  predicate FailsInBody(stages: seq<Stage>, behaviour: Stage -> Behaviour) {
    stages != [] &&
    var b := behaviour(stages[0]);
    if FailureOf(stages[0], b).Some? then b.Runs? && b.fault == NoFault
    else FailsInBody(stages[1..], behaviour)
  }

  /** ... or because its second row is refused. */
  predicate FailsAtSecondWrite(stages: seq<Stage>, behaviour: Stage -> Behaviour) {
    stages != [] &&
    var b := behaviour(stages[0]);
    if FailureOf(stages[0], b).Some? then b.Runs? && b.fault == SecondWrite
    else FailsAtSecondWrite(stages[1..], behaviour)
  }

  /** A stage that goes well adds a pair in front, or nothing. */
  lemma {:induction false} StageGoesWell(stage: Stage, b: Behaviour, rest: seq<StageRow>, from: nat)
    requires FailureOf(stage, b).None? && Bracketed(rest, Index(stage) + 1) && from <= Index(stage)
    ensures var rows := RowsOf(stage, b) + rest;
            && Bracketed(rows, from)
            && (EndsInFailure(rows) <==> EndsInFailure(rest)) && (EndsOpen(rows) <==> EndsOpen(rest))
  {
    var rows := RowsOf(stage, b);
    BracketedFrom(rest, Index(stage) + 1, from);
    if rows == [] {
      assert rows + rest == rest;
    } else {
      assert (rows + rest)[2..] == rest;
    }
  }

  lemma {:induction false} StageFails(stage: Stage, b: Behaviour, from: nat)
    requires FailureOf(stage, b).Some? && from <= Index(stage)
    ensures var rows := RowsOf(stage, b);
            && Bracketed(rows, from)
            && (EndsInFailure(rows) <==> b.Runs? && b.fault == NoFault)
            && (EndsOpen(rows) <==> b.Runs? && b.fault == SecondWrite)
  {
    assert |RowsOf(stage, b)| > 1 ==> RowsOf(stage, b)[2..] == [];
  }

  lemma {:induction false} StagesBracketed(stages: seq<Stage>, behaviour: Stage -> Behaviour, from: nat)
    requires InOrder(stages, from)
    ensures var o := RunStages(stages, behaviour);
            && Bracketed(o.rows, from)
            && (EndsInFailure(o.rows) <==> FailsInBody(stages, behaviour))
            && (EndsOpen(o.rows) <==> FailsAtSecondWrite(stages, behaviour))
    decreases |stages|
  {
    if stages != [] {
      var stage := stages[0];
      if FailureOf(stage, behaviour(stage)).Some? {
        StageFails(stage, behaviour(stage), from);
      } else {
        StagesBracketed(stages[1..], behaviour, Index(stage) + 1);
        StageGoesWell(stage, behaviour(stage), RunStages(stages[1..], behaviour).rows, from);
      }
    }
  }

  lemma BracketedFrom(rows: seq<StageRow>, later: nat, from: nat)
    requires Bracketed(rows, later) && from <= later
    ensures Bracketed(rows, from)
  {
  }

  /** The stages that have a done row. */
  function DoneStages(rows: seq<StageRow>): seq<Stage> {
    if rows == [] then [] else (if rows[0].state == Done then [rows[0].stage] else []) + DoneStages(rows[1..])
  }

  function NotSkipped(stages: seq<Stage>, behaviour: Stage -> Behaviour): seq<Stage> {
    if stages == [] then []
    else (if behaviour(stages[0]).Skips? then [] else [stages[0]]) + NotSkipped(stages[1..], behaviour)
  }

  lemma {:induction false} AllDone(stages: seq<Stage>, behaviour: Stage -> Behaviour)
    requires RunStages(stages, behaviour).failure.None?
    ensures DoneStages(RunStages(stages, behaviour).rows) == NotSkipped(stages, behaviour)
    decreases |stages|
  {
    if stages != [] {
      var b, rest := behaviour(stages[0]), RunStages(stages[1..], behaviour);
      AllDone(stages[1..], behaviour);
      if b.Runs? {
        var rows := RowsOf(stages[0], b) + rest.rows;
        assert rows[1..][1..] == rest.rows && rows[1..][0] == rows[1];
        assert DoneStages(rows) == [] + DoneStages(rows[1..]);
      } else {
        assert [] + rest.rows == rest.rows;
      }
    }
  }

  lemma SetupInOrder()
    ensures InOrder([CreateSprite] + SETUP_STAGES, 0)
  {
    assert forall i | 0 <= i < 7 :: Index(SETUP_STAGES[i]) == i + 1;
    assert forall i | 0 <= i < 8 :: Index(([CreateSprite] + SETUP_STAGES)[i]) == i;
  }

  /** The rows of a provisioning are those of all its stages, one after another. */
  lemma {:induction false} RowsOfAll(stages: seq<Stage>, w: World)
    requires w.configured
    ensures var p, all := ProvisionWith(stages, w), RunStages([CreateSprite] + stages, w.behaviour);
            p.rows == all.rows && (p.raised.Some? <==> all.failure.Some?)
  {
    var create := RunStages([CreateSprite], w.behaviour);
    assert [CreateSprite][1..] == [] && ([CreateSprite] + stages)[1..] == stages;
    assert create.rows == RowsOf(CreateSprite, w.behaviour(CreateSprite));
  }

  /**
   Whatever the stages do and whichever rows are refused, the rows are well
   bracketed in the fixed order; the last pair failed exactly when a stage's
   body raised first, and the last row stands alone exactly when its partner
   was refused first; and success means every stage with something to do is
   done.
   */
  lemma {:induction false} ProvisioningTrace(w: World)
    requires ValidWorld(w) && w.configured
    ensures var p, all := Provision(w), [CreateSprite] + SETUP_STAGES;
            && Bracketed(p.rows, 0)
            && (EndsInFailure(p.rows) <==> FailsInBody(all, w.behaviour))
            && (EndsOpen(p.rows) <==> FailsAtSecondWrite(all, w.behaviour))
            && (p.created <==> Creates(w))
            && (p.raised.None? ==> DoneStages(p.rows) == NotSkipped(all, w.behaviour))
  {
    CreatedIff(w);
    SetupInOrder();
    RowsOfAll(SETUP_STAGES, w);
    StagesBracketed([CreateSprite] + SETUP_STAGES, w.behaviour, 0);
    if Provision(w).raised.None? {
      AllDone([CreateSprite] + SETUP_STAGES, w.behaviour);
    }
  }

  // ---- Cleanup ----

  /** The k-th stage is the first that fails. */
  predicate FailsFirst(stages: seq<Stage>, behaviour: Stage -> Behaviour, k: int) {
    && 0 <= k < |stages| && FailureOf(stages[k], behaviour(stages[k])).Some?
    && forall j | 0 <= j < k :: FailureOf(stages[j], behaviour(stages[j])).None?
  }

  lemma {:induction false} FailsFirstLater(stages: seq<Stage>, behaviour: Stage -> Behaviour, k: int)
    requires stages != [] && FailureOf(stages[0], behaviour(stages[0])).None?
    ensures FailsFirst(stages, behaviour, k) <==> FailsFirst(stages[1..], behaviour, k - 1)
  {
    var rest := stages[1..];
    assert forall j | 0 <= j < |rest| :: rest[j] == stages[j + 1];
    assert forall j | 0 < j < |stages| :: stages[j] == rest[j - 1];
  }

  lemma {:induction false} FirstFailure(stages: seq<Stage>, behaviour: Stage -> Behaviour)
    ensures var failure := RunStages(stages, behaviour).failure;
            && (failure.Some? <==> exists k :: FailsFirst(stages, behaviour, k))
            && forall k | FailsFirst(stages, behaviour, k) :: failure == FailureOf(stages[k], behaviour(stages[k]))
    decreases |stages|
  {
    if stages != [] {
      var rest := stages[1..];
      FirstFailure(rest, behaviour);
      if FailureOf(stages[0], behaviour(stages[0])).Some? {
        assert FailsFirst(stages, behaviour, 0);
      } else {
        forall k ensures FailsFirst(stages, behaviour, k) <==> FailsFirst(rest, behaviour, k - 1) {
          FailsFirstLater(stages, behaviour, k);
        }
        assert forall k :: FailsFirst(rest, behaviour, k) ==> FailsFirst(stages, behaviour, k + 1);
      }
    }
  }

  /** The handle is there: the creation and both of its rows went well. */
  predicate HasHandle(w: World) {
    w.configured && RunStages([CreateSprite], w.behaviour).failure.None?
  }

  /** ... and the setup stage that fails first raised an error of one of the three kinds the cleanup is for. */
  ghost predicate FailsTyped(w: World) {
    && HasHandle(w)
    && exists k :: FailsFirst(SETUP_STAGES, w.behaviour, k) && Typed(Raised(w.behaviour(SETUP_STAGES[k])).value)
  }

  lemma {:induction false} CreationAlone(w: World)
    ensures var b, create := w.behaviour(CreateSprite), RunStages([CreateSprite], w.behaviour);
            create.failure == FailureOf(CreateSprite, b) && create.rows == RowsOf(CreateSprite, b)
  {
    assert [CreateSprite][1..] == [];
  }

  /** A sandbox has been created exactly when the creation's body succeeded. */
  lemma {:induction false} CreatedIff(w: World)
    requires ValidWorld(w)
    ensures Provision(w).created <==> Creates(w)
  {
    CreationAlone(w);
  }

  /** One destroy call when the first stage to fail with the handle there raised a typed error, otherwise none. */
  lemma {:induction false} DestroyCalls(w: World)
    ensures var p := Provision(w);
            && p.destroys == (if FailsTyped(w) then 1 else 0)
            && (HasHandle(w) ==>
                  p.created && (p.raised.Some? <==> exists k :: FailsFirst(SETUP_STAGES, w.behaviour, k)))
            && (p.destroys == 1 && w.destroyRaises.None? ==> p.raised.value.ProvisionError?)
  {
    FirstFailure(SETUP_STAGES, w.behaviour);
  }

  /**
   What is raised when a setup stage fails first: its own tagged error for a
   backend error in its timer, and for a Sprite error in the two stages that
   run the runtime's code; an untagged one for any other of the two; and
   anything else as it is. An error of the destroy call takes its place unless
   it is a backend error.
   */
  lemma {:induction false} RaisedErrorIs(w: World, k: nat)
    requires HasHandle(w) && FailsFirst(SETUP_STAGES, w.behaviour, k)
    ensures var stage, b := SETUP_STAGES[k], w.behaviour(SETUP_STAGES[k]);
            var e := Raised(b).value;
            Provision(w).raised == Some(
              if (e.ProvisionError? || e.BackendError? || e.SpriteError?)
                 && w.destroyRaises.Some? && w.destroyRaises.value != BackendError then w.destroyRaises.value
              else if b.Runs? && (e.BackendError? || (e.SpriteError? && stage in {InstallRuntime, RuntimeConfig})) then
                ProvisionError(At(stage))
              else if e.BackendError? || e.SpriteError? then ProvisionError(UnknownStage)
              else e)
  {
    FirstFailure(SETUP_STAGES, w.behaviour);
  }

  /** Without credentials nothing is tried; a backend error of the creation is tagged with it, and nothing destroyed. */
  lemma {:induction false} CreationErrorIs(w: World)
    requires ValidWorld(w) && !HasHandle(w)
    ensures var b, p := w.behaviour(CreateSprite), Provision(w);
            && p.destroys == 0
            && (!w.configured ==> p.raised == Some(NoBackendCredentials) && p.rows == [])
            && (w.configured && b.fault != NoFault ==> p.raised == Some(OtherError))
            && (w.configured && b.fault == NoFault ==>
                  p.raised == Some(if b.raised.value.BackendError? then ProvisionError(At(CreateSprite))
                                   else b.raised.value))
  {
    CreationAlone(w);
  }

  /** Every stage goes well but this one. */
  function Faulty(stage: Stage, raised: Option<Exn>, fault: Fault): World {
    World(true, (s: Stage) => if s == stage then Runs(raised, fault) else Runs(None, NoFault), None)
  }

  lemma {:induction false} FaultyFailsFirst(k: nat, raised: Option<Exn>, fault: Fault)
    requires k < |SETUP_STAGES| && Raised(Runs(raised, fault)).Some?
    ensures var w := Faulty(SETUP_STAGES[k], raised, fault);
            && HasHandle(w) && FailsFirst(SETUP_STAGES, w.behaviour, k)
            && forall j | FailsFirst(SETUP_STAGES, w.behaviour, j) :: j == k
  {
    var w := Faulty(SETUP_STAGES[k], raised, fault);
    assert forall j | 0 <= j < |SETUP_STAGES| && j != k :: SETUP_STAGES[j] != SETUP_STAGES[k];
    assert [CreateSprite][1..] == [];
  }

  /** Whichever stage it is, its fault has the sandbox destroyed if and only if what the stage lets out is typed. */
  lemma {:induction false} OneFault(k: nat, raised: Option<Exn>, fault: Fault)
    requires k < |SETUP_STAGES| && Raised(Runs(raised, fault)).Some?
    ensures var w := Faulty(SETUP_STAGES[k], raised, fault);
            var p := Provision(w);
            var e := Raised(Runs(raised, fault)).value;
            && p.created && p.raised.Some? && p.destroys == (if Typed(e) then 1 else 0)
            && (!Typed(e) ==> p.raised == Some(e))
  {
    FirstFailure(SETUP_STAGES, Faulty(SETUP_STAGES[k], raised, fault).behaviour);
    DestroyCalls(Faulty(SETUP_STAGES[k], raised, fault));
    FaultyFailsFirst(k, raised, fault);
  }

  /** A fault of the backend's SDK or of the database in the body that runs the script: the sandbox stays. */
  lemma {:induction false} UntypedFaultLeavesTheSandbox()
    ensures var w := Faulty(ProvisionSetup, Some(OtherError), NoFault);
            var p := Provision(w);
            ValidWorld(w) && p.created && p.raised == Some(OtherError) && p.destroys == 0
  {
    OneFault(4, Some(OtherError), NoFault);
  }

  /** A backend error of the kind the cleanup is for, whose "failed" row the database refuses: the sandbox stays. */
  lemma {:induction false} RefusedRowLeavesTheSandbox()
    ensures var w := Faulty(ProvisionSetup, Some(BackendError), SecondWrite);
            var p := Provision(w);
            ValidWorld(w) && p.created && p.raised == Some(OtherError) && p.destroys == 0
  {
    OneFault(4, Some(BackendError), SecondWrite);
  }
}
