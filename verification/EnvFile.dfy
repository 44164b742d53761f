/**
 The body of /tmp/aod-env and the per-turn shim that sources it
 (provisioning/env_file.py, turn/argv.py), and what a shell makes of the two.
 */
module EnvFile {
  import opened Prelude
  import opened Shell
  import opened ShellCommands
  import opened ShellRun
  import opened Dicts

  const ENV_FILE_PATH := "/tmp/aod-env"

  /** The parts of a session spec that reach the file; no environment is None. */
  datatype EnvSpec = EnvSpec(runtimeSessionId: Option<string>, model: Option<string>, envVars: Option<Dict>,
      secrets: Dict)

  // ---- The printers ----

  /** An unset or empty setting has no line. */
  function Setting(name: string, value: Option<string>): seq<Item> {
    if value.None? || value.value == "" then [] else [(name, value.value)]
  }

  function Optionally(d: Option<Dict>): Dict {
    if d.None? then [] else d.value
  }

  function FileItems(spec: EnvSpec, credentials: seq<Item>, staticEnv: seq<Item>): seq<Item> {
    credentials + staticEnv + Setting("AOD_SESSION_ID", spec.runtimeSessionId) + Setting("AOD_MODEL", spec.model)
    + SortedItems(Optionally(spec.envVars)) + SortedItems(spec.secrets)
  }

  function LinesOf(items: seq<Item>): seq<string> {
    seq(|items|, i requires 0 <= i < |items| => AssignmentText(items[i]))
  }

  function BodyOf(items: seq<Item>): string {
    Join(LinesOf(items), "\n") + "\n"
  }

  /** The loops of the builders: one line per item. */
  method AppendLines(lines: seq<string>, ghost before: seq<Item>, items: seq<Item>) returns (more: seq<string>)
    requires lines == LinesOf(before)
    ensures more == LinesOf(before + items)
  {
    more := lines;
    assert before + items[..0] == before;
    for i := 0 to |items|
      invariant more == LinesOf(before + items[..i])
    {
      assert before + items[..i + 1] == before + items[..i] + [items[i]];
      more := more + [items[i].0 + "=" + Quote(items[i].1)];
    }
    assert items[..|items|] == items;
  }

  method AppendSetting(lines: seq<string>, ghost before: seq<Item>, name: string, value: Option<string>)
      returns (more: seq<string>)
    requires lines == LinesOf(before)
    ensures more == LinesOf(before + Setting(name, value))
  {
    more := lines;
    if value.Some? && value.value != "" {
      more := more + [name + "=" + Quote(value.value)];
    } else {
      assert before + [] == before;
    }
  }

  method BuildEnvFileBody(spec: EnvSpec, credentials: seq<Item>, staticEnv: seq<Item>) returns (body: string)
    ensures body == BodyOf(FileItems(spec, credentials, staticEnv))
  {
    ghost var a := credentials + staticEnv;
    ghost var b := a + Setting("AOD_SESSION_ID", spec.runtimeSessionId);
    ghost var c := b + Setting("AOD_MODEL", spec.model);
    var lines := AppendLines([], [], credentials);
    assert [] + credentials == credentials;
    lines := AppendLines(lines, credentials, staticEnv);
    lines := AppendSetting(lines, a, "AOD_SESSION_ID", spec.runtimeSessionId);
    lines := AppendSetting(lines, b, "AOD_MODEL", spec.model);
    if spec.envVars.Some? {
      lines := AppendLines(lines, c, SortedItems(spec.envVars.value));
    } else {
      assert c + SortedItems([]) == c;
    }
    lines := AppendLines(lines, c + SortedItems(Optionally(spec.envVars)), SortedItems(spec.secrets));
    return Join(lines, "\n") + "\n";
  }

  function ShimParts(extraEnv: Option<Dict>): seq<string> {
    ["set -a", "source /tmp/aod-env"] + LinesOf(SortedItems(Optionally(extraEnv))) + ["set +a"]
  }

  const EXEC_ARGS := "exec \"$@\""

  function Shim(extraEnv: Option<Dict>): string {
    Join(ShimParts(extraEnv) + [EXEC_ARGS], "; ")
  }

  method BuildEnvSourceShim(extraEnv: Option<Dict>) returns (shim: string)
    ensures shim == Shim(extraEnv)
  {
    var parts := ["set -a", "source /tmp/aod-env"];
    if extraEnv.Some? && extraEnv.value != [] {
      var lines := AppendLines([], [], SortedItems(extraEnv.value));
      assert [] + SortedItems(extraEnv.value) == SortedItems(extraEnv.value);
      parts := parts + lines;
    }
    parts := parts + ["set +a"];
    parts := parts + ["exec \"$@\""];
    assert parts == ShimParts(extraEnv) + [EXEC_ARGS];
    return Join(parts, "; ");
  }

  /** The argv of a turn, or the error for a mode that is neither "run" nor "continue". */
  method BuildTurnArgv(runtimeArgv: seq<string>, mode: string, extraEnv: Option<Dict>)
      returns (r: Result<seq<string>, string>)
    ensures r == if mode == "run" || mode == "continue" then Ok(TurnArgv(runtimeArgv, extraEnv)) else Err(mode)
  {
    if mode != "run" && mode != "continue" {
      return Err(mode);
    }
    var shim := BuildEnvSourceShim(extraEnv);
    return Ok(["bash", "-lc", shim, "--"] + runtimeArgv);
  }

  function TurnArgv(runtimeArgv: seq<string>, extraEnv: Option<Dict>): (r: seq<string>)
    ensures |r| == 4 + |runtimeArgv| && r[4..] == runtimeArgv
    ensures r[0] == "bash" && r[1] == "-lc" && r[3] == "--"
  {
    ["bash", "-lc", Shim(extraEnv), "--"] + runtimeArgv
  }

  // ---- The file ----

  function Assignments(items: seq<Item>): seq<Command> {
    seq(|items|, i requires 0 <= i < |items| => [AssignmentPieces(items[i])])
  }

  lemma AssignmentReadsAs(item: Item)
    requires Assignable(item)
    ensures ReadsAs(AssignmentText(item), [AssignmentPieces(item)])
  {
    forall tokens
      ensures ReadText(Lexer(tokens, Blank, []), AssignmentText(item)) == AfterCommand(tokens, [AssignmentPieces(item)])
    {
      AssignmentReads(Lexer(tokens, Blank, []), item);
      assert tokens + Tokens([]) == tokens;
    }
  }

  lemma AssignmentsReadAs(items: seq<Item>)
    requires AllAssignable(items)
    ensures AllReadAs(LinesOf(items), Assignments(items))
  {
    forall i | 0 <= i < |items| ensures ReadsAs(LinesOf(items)[i], Assignments(items)[i]) {
      assert items[i] in items;
      AssignmentReadsAs(items[i]);
    }
  }

  function Assigned(m: Machine, items: seq<Item>): Machine
    decreases |items|
  {
    if items == [] then m else Assigned(Assign(m, items[0].0, items[0].1), items[1..])
  }

  ghost predicate RunsAssignments(run: Runner) {
    forall m, item | Assignable(item) :: run(m, [AssignmentPieces(item)]) == Assign(m, item.0, item.1)
  }

  lemma {:induction false} AssignmentsRun(run: Runner, m: Machine, items: seq<Item>)
    requires RunsAssignments(run) && AllAssignable(items)
    ensures RunAll(run, m, Assignments(items)) == Assigned(m, items)
    decreases |items|
  {
    if items != [] {
      assert items[0] in items;
      assert Assignments(items)[1..] == Assignments(items[1..]);
      AssignmentsRun(run, Assign(m, items[0].0, items[0].1), items[1..]);
    }
  }

  lemma CommandsRunAssignments(args: seq<string>)
    ensures RunsAssignments(Commands(args))
  {
    forall m, item | Assignable(item) ensures Commands(args)(m, [AssignmentPieces(item)]) == Assign(m, item.0, item.1) {
      AssignmentRuns(m, item, args);
    }
  }

  lemma {:induction false} BodyIsSeparated(items: seq<Item>)
    ensures BodyOf(items) == if items == [] then "\n" else Separated(LinesOf(items), "\n")
  {
    if items != [] {
      var lines := LinesOf(items);
      var before, last := lines[..|lines| - 1], lines[|lines| - 1];
      assert lines == before + [last] && [last][1..] == [];
      JoinIsSeparated(before, last, "\n");
      SeparatedAppend(before, [last], "\n");
    }
  }

  lemma BodyLexes(items: seq<Item>)
    requires AllAssignable(items)
    ensures Lex(BodyOf(items)) == Some(if items == [] then [Newline] else SeparatedTokens(Assignments(items), Newline))
  {
    BodyIsSeparated(items);
    if items == [] {
      ReadOne(FRESH, '\n');
      assert [] + [Newline] == [Newline];
    } else {
      AssignmentsReadAs(items);
      SeparatedReads([], LinesOf(items), Assignments(items), "\n", Newline);
      assert [] + SeparatedTokens(Assignments(items), Newline) == SeparatedTokens(Assignments(items), Newline);
    }
  }

  /** Sourcing the printed file makes exactly its assignments, in order. */
  lemma {:induction false} FileRuns(m: Machine, items: seq<Item>, args: seq<string>)
    requires AllAssignable(items)
    ensures RunFile(m, BodyOf(items), args) == Assigned(m, items)
  {
    BodyLexes(items);
    if items == [] {
      assert [Newline][1..] == [];
      assert RunTokens(Commands(args), m, [], [Newline]) == RunTokens(Commands(args), m, [], []);
    } else {
      CommandsRunAssignments(args);
      AssignmentsRun(Commands(args), m, items);
      SeparatedRuns(Commands(args), m, Assignments(items), Newline, []);
      assert SeparatedTokens(Assignments(items), Newline) + [] == SeparatedTokens(Assignments(items), Newline);
    }
  }

  /** With everything exported, assigning is overlaying. */
  lemma {:induction false} AssignedIsOverlay(vars: map<string, string>, items: seq<Item>)
    ensures Assigned(Running(vars, vars.Keys, true), items)
         == Running(Overlay(vars, items), Overlay(vars, items).Keys, true)
    decreases |items|
  {
    if items != [] {
      var next := vars[items[0].0 := items[0].1];
      assert next.Keys == vars.Keys + {items[0].0};
      AssignedIsOverlay(next, items[1..]);
    }
  }

  // ---- The shim ----

  lemma ArgsRead(tokens: seq<Token>)
    ensures ReadText(Lexer(tokens, Blank, []), "\"$@\"") == Lexer(tokens, InWord, [AllArgs])
  {
    var s := "\"$@\"";
    var quoted := Lexer(tokens, Double, []);
    var dollar := Lexer(tokens, DoubleDollar, []);
    var args := Lexer(tokens, Double, [AllArgs]);
    assert s[1..] == "$@\"" && s[2..] == "@\"" && s[3..] == "\"";
    assert ReadText(Lexer(tokens, Blank, []), s) == ReadText(quoted, s[1..]);
    assert ReadText(quoted, "$@\"") == ReadText(dollar, "$@\""[1..]);
    assert ReadText(dollar, "@\"") == ReadText(args, "@\""[1..]);
    ReadOne(args, '"');
  }

  const EXEC_COMMAND: Command := [Plain("exec"), [AllArgs]]

  lemma {:induction false} ExecReadsAs()
    ensures ReadsAs(EXEC_ARGS, EXEC_COMMAND)
  {
    forall tokens ensures ReadText(Lexer(tokens, Blank, []), EXEC_ARGS) == AfterCommand(tokens, EXEC_COMMAND) {
      WordThenReads(tokens, "exec", "\"$@\"");
      assert "exec" + " " + "\"$@\"" == EXEC_ARGS;
      ArgsRead(tokens + [Word(Plain("exec"))]);
      assert EXEC_COMMAND[..1] == [Plain("exec")] && Tokens([Plain("exec")]) == [Word(Plain("exec"))];
    }
  }

  /** The commands of the shim before its last. */
  function ShimCommands(items: seq<Item>): seq<Command> {
    [[Plain("set"), Plain("-a")], [Plain("source"), Plain(ENV_FILE_PATH)]] + Assignments(items)
      + [[Plain("set"), Plain("+a")]]
  }

  lemma {:induction false} SetupReadsAs()
    ensures ReadsAs("set -a", [Plain("set"), Plain("-a")])
    ensures ReadsAs("source /tmp/aod-env", [Plain("source"), Plain(ENV_FILE_PATH)])
    ensures ReadsAs("set +a", [Plain("set"), Plain("+a")])
  {
    TwoWordsReadAs("set", "-a");
    TwoWordsReadAs("set", "+a");
    TwoWordsReadAs("source", ENV_FILE_PATH);
    assert "set" + " " + "-a" == "set -a" && "set" + " " + "+a" == "set +a";
    assert "source" + " " + ENV_FILE_PATH == "source /tmp/aod-env";
  }

  lemma {:induction false} ShimReadsAs(items: seq<Item>)
    requires AllAssignable(items)
    ensures AllReadAs(["set -a", "source /tmp/aod-env"] + LinesOf(items) + ["set +a"], ShimCommands(items))
  {
    SetupReadsAs();
    AssignmentsReadAs(items);
    var before := [[Plain("set"), Plain("-a")], [Plain("source"), Plain(ENV_FILE_PATH)]];
    AllReadAsAppend(["set -a", "source /tmp/aod-env"], before, LinesOf(items), Assignments(items));
    AllReadAsAppend(["set -a", "source /tmp/aod-env"] + LinesOf(items), before + Assignments(items),
                    ["set +a"], [[Plain("set"), Plain("+a")]]);
  }

  lemma ShimLexes(extraEnv: Option<Dict>)
    requires AllAssignable(SortedItems(Optionally(extraEnv)))
    ensures Lex(Shim(extraEnv))
         == Some(SeparatedTokens(ShimCommands(SortedItems(Optionally(extraEnv))), Semicolon) + Tokens(EXEC_COMMAND))
  {
    var items := SortedItems(Optionally(extraEnv));
    ShimReadsAs(items);
    ExecReadsAs();
    JoinedLex(ShimParts(extraEnv), ShimCommands(items), EXEC_ARGS, EXEC_COMMAND);
  }

  // ---- The round trip ----

  lemma SetupRuns(m: Machine, files: map<string, string>, args: seq<string>)
    requires m.Running?
    ensures CommandsAndSource(files, args)(m, [Plain("set"), Plain("-a")]) == m.(allExport := true)
    ensures CommandsAndSource(files, args)(m, [Plain("set"), Plain("+a")]) == m.(allExport := false)
    ensures args != [] ==> CommandsAndSource(files, args)(m, EXEC_COMMAND) == Replaced(args, Exported(m))
  {
    assert |Plain("set")| == 3 && |Plain("source")| == 6 && |Plain("exec")| == 4;
    assert Plain("-a")[0] != Plain("+a")[0];
  }

  lemma {:induction false} SourceRuns(m: Machine, files: map<string, string>, args: seq<string>)
    requires m.Running? && ENV_FILE_PATH in files
    ensures CommandsAndSource(files, args)(m, [Plain("source"), Plain(ENV_FILE_PATH)])
            == RunFile(m, files[ENV_FILE_PATH], args)
  {
    TextOfLits(ENV_FILE_PATH, false);
  }

  lemma SourcingRunsAssignments(files: map<string, string>, args: seq<string>)
    ensures RunsAssignments(CommandsAndSource(files, args))
  {
    forall m, item | Assignable(item)
      ensures CommandsAndSource(files, args)(m, [AssignmentPieces(item)]) == Assign(m, item.0, item.1)
    {
      AssignmentRuns(m, item, args);
    }
  }

  lemma AssignedStaysRunning(m: Machine, items: seq<Item>)
    requires m.Running? && m.exported == m.vars.Keys && m.allExport
    ensures Assigned(m, items) == Running(Overlay(m.vars, items), Overlay(m.vars, items).Keys, true)
  {
    AssignedIsOverlay(m.vars, items);
  }

  /** All of the shim before its last command, in a shell where everything is exported. */
  lemma ShimCommandsRun(env: map<string, string>, files: map<string, string>, args: seq<string>, fileItems: seq<Item>,
      items: seq<Item>)
    requires AllAssignable(fileItems) && AllAssignable(items)
    requires ENV_FILE_PATH in files && files[ENV_FILE_PATH] == BodyOf(fileItems)
    ensures var end := Overlay(env, fileItems + items);
            RunAll(CommandsAndSource(files, args), Running(env, env.Keys, false), ShimCommands(items))
              == Running(end, end.Keys, false)
  {
    var run, m := CommandsAndSource(files, args), Running(env, env.Keys, false);
    var setA, source := [Plain("set"), Plain("-a")], [Plain("source"), Plain(ENV_FILE_PATH)];
    var unsetA := [Plain("set"), Plain("+a")];
    var m1 := m.(allExport := true);
    var m2 := Assigned(m1, fileItems);
    var m3 := Assigned(m2, items);
    SetupRuns(m, files, args);
    SourceRuns(m1, files, args);
    FileRuns(m1, fileItems, args);
    AssignedStaysRunning(m1, fileItems);
    SourcingRunsAssignments(files, args);
    AssignmentsRun(run, m2, items);
    AssignedStaysRunning(m2, items);
    OverlayAppend(env, fileItems, items);
    SetupRuns(m3, files, args);
    FiveRuns(run, m, setA, source, Assignments(items), unsetA);
  }

  lemma FiveRuns(run: Runner, m: Machine, a: Command, b: Command, middle: seq<Command>, last: Command)
    ensures RunAll(run, m, [a, b] + middle + [last]) == run(RunAll(run, run(run(m, a), b), middle), last)
  {
    RunAllAppend(run, m, [a, b] + middle, [last]);
    RunAllAppend(run, m, [a, b], middle);
    assert [a, b][1..] == [b] && [b][1..] == [] && [last][1..] == [];
    assert RunAll(run, run(m, a), [b]) == RunAll(run, run(run(m, a), b), []);
  }

  lemma {:induction false} ShimRuns(env: map<string, string>, files: map<string, string>, args: seq<string>,
      fileItems: seq<Item>, extraEnv: Option<Dict>)
    requires AllAssignable(fileItems) && AllAssignable(SortedItems(Optionally(extraEnv))) && args != []
    requires ENV_FILE_PATH in files && files[ENV_FILE_PATH] == BodyOf(fileItems)
    ensures RunShell(env, Shim(extraEnv), files, args)
         == Replaced(args, Overlay(env, fileItems + SortedItems(Optionally(extraEnv))))
  {
    var items := SortedItems(Optionally(extraEnv));
    var run, m := CommandsAndSource(files, args), Running(env, env.Keys, false);
    ShimLexes(extraEnv);
    SeparatedRuns(run, m, ShimCommands(items), Semicolon, Tokens(EXEC_COMMAND));
    ShimCommandsRun(env, files, args, fileItems, items);
    var end := Overlay(env, fileItems + items);
    var last := Running(end, end.Keys, false);
    RunWords(run, last, [], EXEC_COMMAND, []);
    assert Tokens(EXEC_COMMAND) + [] == Tokens(EXEC_COMMAND) && [] + EXEC_COMMAND == EXEC_COMMAND;
    SetupRuns(last, files, args);
    assert Exported(last) == end;
  }

  ghost predicate GoodDict(d: Dict) {
    DistinctKeys(d) && AllAssignable(d)
  }

  /** Identifiers for names and no NUL in values: what validation leaves of a request. */
  ghost predicate GoodSpec(spec: EnvSpec) {
    && GoodDict(Optionally(spec.envVars)) && GoodDict(spec.secrets)
    && (spec.runtimeSessionId.Some? ==> NoNul(spec.runtimeSessionId.value))
    && (spec.model.Some? ==> NoNul(spec.model.value))
  }

  lemma SortedAssignable(d: Dict)
    requires GoodDict(d)
    ensures AllAssignable(SortedItems(d))
  {
    SortedItemsSorted(d);
  }

  lemma {:induction false} FileItemsAssignable(spec: EnvSpec, credentials: seq<Item>, staticEnv: seq<Item>)
    requires GoodSpec(spec) && AllAssignable(credentials) && AllAssignable(staticEnv)
    ensures AllAssignable(FileItems(spec, credentials, staticEnv))
  {
    SortedAssignable(Optionally(spec.envVars));
    SortedAssignable(spec.secrets);
    assert Identifier("AOD_SESSION_ID") && Identifier("AOD_MODEL");
    assert AllAssignable(Setting("AOD_SESSION_ID", spec.runtimeSessionId));
    assert AllAssignable(Setting("AOD_MODEL", spec.model));
  }

  function SettingMap(name: string, value: Option<string>): map<string, string> {
    if value.None? || value.value == "" then map[] else map[name := value.value]
  }

  /** The environment the runtime is meant to see: each layer overriding the ones before it. */
  function Layers(env: map<string, string>, spec: EnvSpec, credentials: seq<Item>, staticEnv: seq<Item>)
    : map<string, string>
  {
    env + ToMap(credentials) + ToMap(staticEnv)
    + SettingMap("AOD_SESSION_ID", spec.runtimeSessionId) + SettingMap("AOD_MODEL", spec.model)
    + ToMap(Optionally(spec.envVars)) + ToMap(spec.secrets)
  }

  lemma SettingOverlays(env: map<string, string>, name: string, value: Option<string>)
    ensures Overlay(env, Setting(name, value)) == env + SettingMap(name, value)
  {
    if value.Some? && value.value != "" {
      var item := (name, value.value);
      assert Setting(name, value) == [item] && [item][1..] == [];
      assert Overlay(env, [item]) == Overlay(env[name := value.value], []);
    }
  }

  lemma DictOverlays(env: map<string, string>, d: Dict)
    requires DistinctKeys(d)
    ensures Overlay(env, SortedItems(d)) == env + ToMap(d)
  {
    OverlayIsUnion(env, SortedItems(d));
    SortedKeepsMap(d);
  }

  lemma FileItemsLayer(env: map<string, string>, spec: EnvSpec, credentials: seq<Item>, staticEnv: seq<Item>)
    requires GoodSpec(spec)
    ensures Overlay(env, FileItems(spec, credentials, staticEnv)) == Layers(env, spec, credentials, staticEnv)
  {
    var a := credentials + staticEnv;
    var b := a + Setting("AOD_SESSION_ID", spec.runtimeSessionId);
    var c := b + Setting("AOD_MODEL", spec.model);
    var d := c + SortedItems(Optionally(spec.envVars));
    OverlayAppend(env, credentials, staticEnv);
    OverlayAppend(env, a, Setting("AOD_SESSION_ID", spec.runtimeSessionId));
    OverlayAppend(env, b, Setting("AOD_MODEL", spec.model));
    OverlayAppend(env, c, SortedItems(Optionally(spec.envVars)));
    OverlayAppend(env, d, SortedItems(spec.secrets));
    OverlayIsUnion(env, credentials);
    OverlayIsUnion(Overlay(env, credentials), staticEnv);
    SettingOverlays(Overlay(env, a), "AOD_SESSION_ID", spec.runtimeSessionId);
    SettingOverlays(Overlay(env, b), "AOD_MODEL", spec.model);
    DictOverlays(Overlay(env, c), Optionally(spec.envVars));
    DictOverlays(Overlay(env, d), spec.secrets);
  }

  /**
   A shell that runs the shim over the printed file becomes the runtime's
   command, in the environment it started from overlaid by credentials, static
   settings, session id, model, environment variables, secrets and the turn's
   own variables, in this order, each value exactly as it was given.
   */
  lemma {:induction false} ShimRoundTrip(env: map<string, string>, files: map<string, string>, runtimeArgv: seq<string>,
                      spec: EnvSpec, credentials: seq<Item>, staticEnv: seq<Item>, extraEnv: Option<Dict>)
    requires GoodSpec(spec) && AllAssignable(credentials) && AllAssignable(staticEnv) && GoodDict(Optionally(extraEnv))
    requires runtimeArgv != []
    ensures var written := files[ENV_FILE_PATH := BodyOf(FileItems(spec, credentials, staticEnv))];
            var argv := TurnArgv(runtimeArgv, extraEnv);
            RunShell(env, argv[2], written, argv[4..])
            == Replaced(runtimeArgv, Layers(env, spec, credentials, staticEnv) + ToMap(Optionally(extraEnv)))
  {
    var fileItems, items := FileItems(spec, credentials, staticEnv), SortedItems(Optionally(extraEnv));
    FileItemsAssignable(spec, credentials, staticEnv);
    SortedAssignable(Optionally(extraEnv));
    ShimRuns(env, files[ENV_FILE_PATH := BodyOf(fileItems)], runtimeArgv, fileItems, extraEnv);
    OverlayAppend(env, fileItems, items);
    FileItemsLayer(env, spec, credentials, staticEnv);
    DictOverlays(Overlay(env, fileItems), Optionally(extraEnv));
  }

  /** The texts depend on what the dictionaries hold, not on the order it was put in. */
  lemma TextsForgetInsertionOrder(spec: EnvSpec, other: EnvSpec, credentials: seq<Item>, staticEnv: seq<Item>,
      extraEnv: Dict, otherEnv: Dict)
    requires GoodSpec(spec) && GoodSpec(other) && GoodDict(extraEnv) && GoodDict(otherEnv)
    requires spec.runtimeSessionId == other.runtimeSessionId && spec.model == other.model
    requires ToMap(Optionally(spec.envVars)) == ToMap(Optionally(other.envVars))
             && ToMap(spec.secrets) == ToMap(other.secrets)
    requires ToMap(extraEnv) == ToMap(otherEnv)
    ensures BodyOf(FileItems(spec, credentials, staticEnv)) == BodyOf(FileItems(other, credentials, staticEnv))
    ensures Shim(Some(extraEnv)) == Shim(Some(otherEnv))
  {
    SortingForgetsInsertionOrder(Optionally(spec.envVars), Optionally(other.envVars));
    SortingForgetsInsertionOrder(spec.secrets, other.secrets);
    SortingForgetsInsertionOrder(extraEnv, otherEnv);
  }
}
