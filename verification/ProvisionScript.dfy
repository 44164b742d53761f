/** The provision script as printed text, and the commands a shell reads in it (provisioning/script.py). */
module ProvisionScript {
  import opened Prelude
  import opened Decimal
  import opened Shell
  import opened ShellCommands
  import opened ScriptText
  import opened Packages
  import opened Dicts
  import EnvFile

  datatype Skill = Skill(name: string, content: Option<string>)

  datatype Repo = Repo(url: string, mountPath: string, token: Option<string>)

  datatype ScriptEnv = ScriptEnv(packages: map<Manager, seq<string>>, setupScript: Option<string>)

  datatype ScriptSpec = ScriptSpec(
    runtimeName: string,
    skillsRoot: Option<string>,
    hasMcpServers: bool,
    skills: seq<Skill>,
    repos: seq<Repo>,
    environment: Option<ScriptEnv>)

  const GIT_CREDS_PATH := "/tmp/.git-credentials"
  const CREDENTIAL_HELPER := "store --file=/tmp/.git-credentials"

  // ---- What the script is meant to do ----

  function Truthy(s: Option<string>): bool {
    s.Some? && s.value != ""
  }

  predicate AnyToken(repos: seq<Repo>) {
    exists repo | repo in repos :: Truthy(repo.token)
  }

  function ConfigDir(runtimeName: string): Option<string> {
    if runtimeName == "codex" then Some("/home/sprite/.codex")
    else if runtimeName == "gemini" then Some("/home/sprite/.gemini")
    else if runtimeName == "opencode" then Some("/home/sprite/.config/opencode")
    else None
  }

  function SkillDirs(root: string, skills: seq<Skill>): seq<string> {
    if skills == [] then []
    else (if skills[0].content.Some? then [root + "/" + skills[0].name] else []) + SkillDirs(root, skills[1..])
  }

  function DirectoriesForPostScriptWrites(spec: ScriptSpec): seq<string> {
    (if ConfigDir(spec.runtimeName).Some? && (spec.hasMcpServers || spec.runtimeName == "codex")
     then [ConfigDir(spec.runtimeName).value] else [])
    + (if Truthy(spec.skillsRoot) then SkillDirs(spec.skillsRoot.value, spec.skills) else [])
  }

  // ---- The whole script ----

  const SET_E: seq<string> := ["set", "-e"]
  const MKDIR_P: seq<string> := ["mkdir", "-p"]
  const CHMOD: seq<string> := ["chmod", "600"]
  const GIT_CONFIG: seq<string> := ["git", "config", "--global", "credential.helper"]
  const GIT_CLONE: seq<string> := ["git", "clone", "--depth=1", "--quiet"]

  function GetOr(packages: map<Manager, seq<string>>, manager: Manager): seq<string> {
    if manager in packages then packages[manager] else []
  }

  function LinesFor(manager: Manager, pkgs: seq<string>): seq<string> {
    if pkgs == [] || PackageCommands(manager, pkgs).Err? then [] else PackageCommands(manager, pkgs).value
  }

  function InstallsFor(manager: Manager, pkgs: seq<string>): seq<Cmd> {
    if pkgs == [] || Installs(manager, pkgs).None? then [] else Installs(manager, pkgs).value
  }

  function PackageLines(order: seq<Manager>, packages: map<Manager, seq<string>>): seq<string> {
    if order == [] then []
    else LinesFor(order[0], GetOr(packages, order[0])) + PackageLines(order[1..], packages)
  }

  function PackageInstalls(order: seq<Manager>, packages: map<Manager, seq<string>>): seq<Cmd> {
    if order == [] then []
    else InstallsFor(order[0], GetOr(packages, order[0])) + PackageInstalls(order[1..], packages)
  }

  function Dirs(spec: ScriptSpec): seq<string> {
    SortBy(Less, DirectoriesForPostScriptWrites(spec))
  }

  function HasPackages(spec: ScriptSpec): bool {
    spec.environment.Some? && spec.environment.value.packages != map[]
  }

  function UserScript(spec: ScriptSpec): string {
    if spec.environment.Some? && spec.environment.value.setupScript.Some?
    then Strip(spec.environment.value.setupScript.value) else ""
  }

  function MkdirCmds(spec: ScriptSpec): seq<seq<Cmd>> {
    if Dirs(spec) == [] then [] else [[Simple(MKDIR_P + Dirs(spec))]]
  }

  function ChmodCmds(spec: ScriptSpec): seq<Cmd> {
    [Simple(CHMOD + [EnvFile.ENV_FILE_PATH])]
      + (if AnyToken(spec.repos) then [Simple(CHMOD + [GIT_CREDS_PATH])] else [])
  }

  function PackageCmds(spec: ScriptSpec): seq<seq<Cmd>> {
    if HasPackages(spec) then [PackageInstalls(PACKAGE_MANAGER_ORDER, spec.environment.value.packages)] else []
  }

  function GitCmds(spec: ScriptSpec): seq<Cmd> {
    (if AnyToken(spec.repos) then [Simple(GIT_CONFIG + [CREDENTIAL_HELPER])] else []) + Clones(spec.repos)
  }

  function CloneCmds(spec: ScriptSpec): seq<seq<Cmd>> {
    if spec.repos == [] then [] else [GitCmds(spec)]
  }

  /** The commands the script is meant to run before the user's own, section by section. */
  function Intended(spec: ScriptSpec): seq<seq<Cmd>> {
    [[Simple(SET_E)]] + MkdirCmds(spec) + [ChmodCmds(spec)] + PackageCmds(spec) + CloneCmds(spec)
  }

  function Clones(repos: seq<Repo>): seq<Cmd> {
    seq(|repos|, i requires 0 <= i < |repos| => Simple(GIT_CLONE + [repos[i].url, repos[i].mountPath]))
  }

  function CloneLine(repo: Repo): string {
    Fixed(GIT_CLONE) + JoinQuoted([repo.url, repo.mountPath])
  }

  function CloneLines(repos: seq<Repo>): seq<string> {
    seq(|repos|, i requires 0 <= i < |repos| => CloneLine(repos[i]))
  }

  function MkdirSection(spec: ScriptSpec): seq<seq<string>> {
    if Dirs(spec) == [] then [] else [[Fixed(MKDIR_P) + JoinQuoted(Dirs(spec))]]
  }

  function ChmodLines(spec: ScriptSpec): seq<string> {
    [QuotedLine(CHMOD, EnvFile.ENV_FILE_PATH)]
      + (if AnyToken(spec.repos) then [QuotedLine(CHMOD, GIT_CREDS_PATH)] else [])
  }

  function PackageSection(spec: ScriptSpec): seq<seq<string>> {
    if HasPackages(spec) then [PackageLines(PACKAGE_MANAGER_ORDER, spec.environment.value.packages)] else []
  }

  function CloneSection(spec: ScriptSpec): seq<seq<string>> {
    if spec.repos == [] then []
    else [(if AnyToken(spec.repos) then [QuotedLine(GIT_CONFIG, CREDENTIAL_HELPER)] else []) + CloneLines(spec.repos)]
  }

  const HEADER: seq<string> := ["#!/bin/bash", Join(SET_E, " ")]

  /** The printed sections; each is followed by an empty line. */
  function Sections(spec: ScriptSpec): seq<seq<string>> {
    [HEADER] + MkdirSection(spec) + [ChmodLines(spec)] + PackageSection(spec) + CloneSection(spec)
  }

  function Spaced(sections: seq<seq<string>>): seq<string> {
    if sections == [] then [] else sections[0] + [""] + Spaced(sections[1..])
  }

  lemma {:induction false} SpacedAppend(a: seq<seq<string>>, b: seq<seq<string>>)
    ensures Spaced(a + b) == Spaced(a) + Spaced(b)
  {
    if a == [] {
      assert a + b == b;
    } else {
      assert (a + b)[0] == a[0] && (a + b)[1..] == a[1..] + b;
      SpacedAppend(a[1..], b);
    }
  }

  lemma SpacedOne(sections: seq<seq<string>>, section: seq<string>)
    ensures Spaced(sections + [section]) == Spaced(sections) + section + [""]
  {
    SpacedAppend(sections, [section]);
    assert [section][1..] == [];
    assert Spaced([section]) == section + [""];
  }

  function ScriptLines(spec: ScriptSpec): seq<string> {
    Spaced(Sections(spec)) + (if UserScript(spec) == "" then [] else [UserScript(spec), ""])
  }

  method AppendAll(lines: seq<string>, more: seq<string>) returns (all: seq<string>)
    ensures all == lines + more
  {
    all := lines;
    for j := 0 to |more|
      invariant all == lines + more[..j]
    {
      all := all + [more[j]];
    }
  }

  lemma {:induction false} FirstManager(order: seq<Manager>, packages: map<Manager, seq<string>>, before: seq<string>)
    requires order != []
    ensures before + PackageLines(order, packages)
         == before + LinesFor(order[0], GetOr(packages, order[0])) + PackageLines(order[1..], packages)
  {
    Associative(before, LinesFor(order[0], GetOr(packages, order[0])), PackageLines(order[1..], packages));
  }

  method BuildPackageLines(packages: map<Manager, seq<string>>) returns (lines: seq<string>)
    ensures lines == PackageLines(PACKAGE_MANAGER_ORDER, packages)
  {
    lines := [];
    for i := 0 to |PACKAGE_MANAGER_ORDER|
      invariant PackageLines(PACKAGE_MANAGER_ORDER, packages)
                == lines + PackageLines(PACKAGE_MANAGER_ORDER[i..], packages)
    {
      var manager := PACKAGE_MANAGER_ORDER[i];
      FirstManager(PACKAGE_MANAGER_ORDER[i..], packages, lines);
      assert PACKAGE_MANAGER_ORDER[i..][1..] == PACKAGE_MANAGER_ORDER[i + 1..];
      var pkgs := GetOr(packages, manager);
      if pkgs == [] {
        continue;
      }
      lines := AppendAll(lines, PackageCommands(manager, pkgs).value);
    }
  }

  method BuildCloneLines(repos: seq<Repo>) returns (lines: seq<string>)
    ensures lines == CloneLines(repos)
  {
    lines := [];
    for i := 0 to |repos|
      invariant lines == CloneLines(repos)[..i]
    {
      lines := lines + [CloneLine(repos[i])];
    }
    assert lines == CloneLines(repos);
  }

  /** One section and the empty line after it. */
  method AddSection(lines: seq<string>, ghost before: seq<seq<string>>, section: seq<string>)
      returns (more: seq<string>)
    requires lines == Spaced(before)
    ensures more == Spaced(before + [section])
  {
    SpacedOne(before, section);
    more := AppendAll(lines, section);
    more := more + [""];
  }

  method AddMkdir(spec: ScriptSpec, lines: seq<string>, ghost before: seq<seq<string>>) returns (more: seq<string>)
    requires lines == Spaced(before)
    ensures more == Spaced(before + MkdirSection(spec))
  {
    var dirsToMake := Dirs(spec);
    if dirsToMake == [] {
      assert before + [] == before;
      return lines;
    }
    more := AddSection(lines, before, [Fixed(MKDIR_P) + JoinQuoted(dirsToMake)]);
  }

  method AddChmods(spec: ScriptSpec, lines: seq<string>, ghost before: seq<seq<string>>) returns (more: seq<string>)
    requires lines == Spaced(before)
    ensures more == Spaced(before + [ChmodLines(spec)])
  {
    var chmods := [QuotedLine(CHMOD, EnvFile.ENV_FILE_PATH)];
    if AnyToken(spec.repos) {
      chmods := chmods + [QuotedLine(CHMOD, GIT_CREDS_PATH)];
    }
    assert chmods == ChmodLines(spec);
    more := AddSection(lines, before, chmods);
  }

  method AddPackages(spec: ScriptSpec, lines: seq<string>, ghost before: seq<seq<string>>) returns (more: seq<string>)
    requires lines == Spaced(before)
    ensures more == Spaced(before + PackageSection(spec))
  {
    if spec.environment.None? || spec.environment.value.packages == map[] {
      assert before + [] == before;
      return lines;
    }
    var packageLines := BuildPackageLines(spec.environment.value.packages);
    more := AddSection(lines, before, packageLines);
  }

  method AddClones(spec: ScriptSpec, lines: seq<string>, ghost before: seq<seq<string>>) returns (more: seq<string>)
    requires lines == Spaced(before)
    ensures more == Spaced(before + CloneSection(spec))
  {
    if spec.repos == [] {
      assert before + [] == before;
      return lines;
    }
    var clones := BuildCloneLines(spec.repos);
    if AnyToken(spec.repos) {
      clones := [QuotedLine(GIT_CONFIG, CREDENTIAL_HELPER)] + clones;
    } else {
      assert [] + clones == clones;
    }
    assert CloneSection(spec) == [clones];
    more := AddSection(lines, before, clones);
  }

  method BuildProvisionScript(spec: ScriptSpec) returns (script: string)
    ensures script == Join(ScriptLines(spec), "\n")
  {
    var lines := AddSection([], [], ["#!/bin/bash", Join(SET_E, " ")]);
    ghost var done := [] + [HEADER];
    lines := AddMkdir(spec, lines, done);
    done := done + MkdirSection(spec);
    lines := AddChmods(spec, lines, done);
    done := done + [ChmodLines(spec)];
    lines := AddPackages(spec, lines, done);
    done := done + PackageSection(spec);
    lines := AddClones(spec, lines, done);
    assert [] + [HEADER] == [HEADER];
    if UserScript(spec) != "" {
      lines := lines + [UserScript(spec), ""];
    } else {
      assert lines + [] == lines;
    }
    return Join(lines, "\n");
  }

  // ---- The whole script, read ----

  /** Sections that print their commands, with and without the empty line after the last. */
  lemma {:induction false} SectionsPrint(sections: seq<seq<string>>, cmds: seq<seq<Cmd>>)
    requires |sections| == |cmds| && forall i | 0 <= i < |sections| :: Prints(sections[i], cmds[i])
    ensures Prints(Spaced(sections), Flatten(cmds))
    decreases |sections|
  {
    if sections == [] {
      NoLines();
    } else {
      SectionsPrint(sections[1..], cmds[1..]);
      SectionPrints(sections[0], cmds[0]);
      PrintsAppend(sections[0] + [""], cmds[0], Spaced(sections[1..]), Flatten(cmds[1..]));
    }
  }

  lemma SectionPrints(section: seq<string>, cmds: seq<Cmd>)
    requires Prints(section, cmds)
    ensures Prints(section + [""], cmds)
  {
    EmptyLine();
    PrintsAppend(section, cmds, [""], []);
    assert cmds + [] == cmds;
  }

  lemma LastSectionPrints(sections: seq<seq<string>>, cmds: seq<seq<Cmd>>)
    requires |sections| == |cmds| > 0 && forall i | 0 <= i < |sections| :: Prints(sections[i], cmds[i])
    ensures var n := |sections| - 1; Prints(Spaced(sections[..n]) + sections[n], Flatten(cmds))
  {
    var n := |sections| - 1;
    SectionsPrint(sections[..n], cmds[..n]);
    PrintsAppend(Spaced(sections[..n]), Flatten(cmds[..n]), sections[n], cmds[n]);
    FlattenLast(cmds);
  }

  lemma {:induction false} FlattenLast(cmds: seq<seq<Cmd>>)
    requires cmds != []
    ensures Flatten(cmds) == Flatten(cmds[..|cmds| - 1]) + cmds[|cmds| - 1]
  {
    var last := cmds[|cmds| - 1];
    assert cmds == cmds[..|cmds| - 1] + [last] && [last][1..] == [];
    FlattenAppend(cmds[..|cmds| - 1], [last]);
    assert Flatten([last]) == last + [] == last;
  }

  predicate GoodRepo(repo: Repo) {
    NoNul(repo.url) && NoNul(repo.mountPath)
  }

  /** No NUL in anything that is printed. */
  ghost predicate GoodScriptSpec(spec: ScriptSpec) {
    && NoNuls(Dirs(spec))
    && (forall repo | repo in spec.repos :: GoodRepo(repo))
    && (HasPackages(spec) ==> forall manager :: NoNuls(GetOr(spec.environment.value.packages, manager)))
  }

  lemma {:induction false} SetupWordsAreSafe()
    ensures AllSafe(SET_E) && AllSafe(MKDIR_P) && AllSafe(CHMOD)
  {
  }

  lemma {:induction false} GitWordsAreSafe()
    ensures AllSafe(GIT_CONFIG) && AllSafe(GIT_CLONE)
  {
    assert Safe("git") && Safe("config") && Safe("--global") && Safe("credential.helper");
    assert Safe("clone") && Safe("--depth=1") && Safe("--quiet");
  }

  lemma {:induction false} PathsHaveNoNul()
    ensures NoNul(EnvFile.ENV_FILE_PATH) && NoNul(GIT_CREDS_PATH) && NoNul(CREDENTIAL_HELPER)
  {
  }

  lemma {:induction false} HeaderPrints()
    ensures Prints(HEADER, [Simple(SET_E)])
  {
    SetupWordsAreSafe();
    FixedIsQuoted(SET_E);
    WholeLine(SET_E);
    assert "#" + "!/bin/bash" == "#!/bin/bash";
    assert NoNul("!/bin/bash") && '\n' !in "!/bin/bash";
    CommentLine("!/bin/bash");
    PrintsAppend(["#!/bin/bash"], [], [Join(SET_E, " ")], [Simple(SET_E)]);
    assert [] + [Simple(SET_E)] == [Simple(SET_E)];
    assert HEADER == ["#!/bin/bash"] + [Join(SET_E, " ")];
  }

  lemma WholeLine(words: seq<string>)
    requires words != [] && NoNuls(words)
    ensures Prints([JoinQuoted(words)], [Simple(words)])
  {
    forall before
      ensures ReadText(Lexer(before, Blank, []), JoinQuoted(words) + "\n")
              == Lexer(before + WordTokens(words) + [Newline], Blank, [])
    {
      JoinQuotedReads(Lexer(before, Blank, []), words);
      ReadAppend(Lexer(before, Blank, []), JoinQuoted(words), "\n");
      WordsThenNewline(before, words);
    }
    PrintsLine(JoinQuoted(words), Simple(words));
  }

  lemma ChmodPrints(spec: ScriptSpec)
    ensures Prints(ChmodLines(spec), ChmodCmds(spec))
  {
    SetupWordsAreSafe();
    PathsHaveNoNul();
    OneLine(CHMOD, EnvFile.ENV_FILE_PATH);
    var env, git := [QuotedLine(CHMOD, EnvFile.ENV_FILE_PATH)], [QuotedLine(CHMOD, GIT_CREDS_PATH)];
    if AnyToken(spec.repos) {
      OneLine(CHMOD, GIT_CREDS_PATH);
      PrintsAppend(env, [Simple(CHMOD + [EnvFile.ENV_FILE_PATH])], git, [Simple(CHMOD + [GIT_CREDS_PATH])]);
    } else {
      assert env + [] == env && [Simple(CHMOD + [EnvFile.ENV_FILE_PATH])] + []
             == [Simple(CHMOD + [EnvFile.ENV_FILE_PATH])];
    }
  }

  lemma {:induction false} PackagesPrint(order: seq<Manager>, packages: map<Manager, seq<string>>)
    requires forall manager | manager in order :: manager in PACKAGE_MANAGER_ORDER && NoNuls(GetOr(packages, manager))
    ensures Prints(PackageLines(order, packages), PackageInstalls(order, packages))
    decreases |order|
  {
    if order == [] {
      NoLines();
    } else {
      var manager := order[0];
      var pkgs := GetOr(packages, manager);
      assert manager in order;
      ManagerPrints(manager, pkgs);
      PackagesPrint(order[1..], packages);
      PrintsAppend(LinesFor(manager, pkgs), InstallsFor(manager, pkgs),
                   PackageLines(order[1..], packages), PackageInstalls(order[1..], packages));
    }
  }

  lemma ManagerPrints(manager: Manager, pkgs: seq<string>)
    requires manager in PACKAGE_MANAGER_ORDER && NoNuls(pkgs)
    ensures Prints(LinesFor(manager, pkgs), InstallsFor(manager, pkgs))
  {
    if pkgs == [] {
      NoLines();
    } else {
      PackageCommandsRead(manager, pkgs);
    }
  }

  lemma {:induction false} ClonesPrint(repos: seq<Repo>)
    requires forall repo | repo in repos :: GoodRepo(repo)
    ensures Prints(CloneLines(repos), Clones(repos))
    decreases |repos|
  {
    FirstClone(repos);
    if repos == [] {
      NoLines();
    } else {
      assert repos[0] in repos;
      var args := [repos[0].url, repos[0].mountPath];
      GitWordsAreSafe();
      FixedLine(GIT_CLONE, args);
      ClonesPrint(repos[1..]);
      PrintsAppend([CloneLine(repos[0])], [Simple(GIT_CLONE + args)], CloneLines(repos[1..]), Clones(repos[1..]));
    }
  }

  lemma {:induction false} FirstClone(repos: seq<Repo>)
    ensures repos == [] ==> CloneLines(repos) == [] && Clones(repos) == []
    ensures repos != [] ==>
              CloneLines(repos) == [CloneLine(repos[0])] + CloneLines(repos[1..])
    ensures repos != [] ==>
              Clones(repos) == [Simple(GIT_CLONE + [repos[0].url, repos[0].mountPath])] + Clones(repos[1..])
  {
  }

  lemma CloneSectionPrints(spec: ScriptSpec)
    requires GoodScriptSpec(spec) && spec.repos != []
    ensures Prints(CloneSection(spec)[0], GitCmds(spec))
  {
    ClonesPrint(spec.repos);
    if AnyToken(spec.repos) {
      GitWordsAreSafe();
      PathsHaveNoNul();
      OneLine(GIT_CONFIG, CREDENTIAL_HELPER);
      PrintsAppend([QuotedLine(GIT_CONFIG, CREDENTIAL_HELPER)], [Simple(GIT_CONFIG + [CREDENTIAL_HELPER])],
                   CloneLines(spec.repos), Clones(spec.repos));
    } else {
      assert [] + CloneLines(spec.repos) == CloneLines(spec.repos) && [] + Clones(spec.repos) == Clones(spec.repos);
    }
  }

  ghost predicate AllPrint(sections: seq<seq<string>>, cmds: seq<seq<Cmd>>) {
    |sections| == |cmds| && forall i | 0 <= i < |sections| :: Prints(sections[i], cmds[i])
  }

  lemma {:induction false} OptionalSectionsPrint(spec: ScriptSpec)
    requires GoodScriptSpec(spec)
    ensures AllPrint(MkdirSection(spec), MkdirCmds(spec))
    ensures AllPrint(PackageSection(spec), PackageCmds(spec))
    ensures AllPrint(CloneSection(spec), CloneCmds(spec))
  {
    if Dirs(spec) != [] {
      SetupWordsAreSafe();
      FixedLine(MKDIR_P, Dirs(spec));
    }
    if HasPackages(spec) {
      PackagesPrint(PACKAGE_MANAGER_ORDER, spec.environment.value.packages);
    }
    if spec.repos != [] {
      CloneSectionPrints(spec);
    }
  }

  lemma {:induction false} AllPrintAppend(a: seq<seq<string>>, cmds: seq<seq<Cmd>>, b: seq<seq<string>>,
      more: seq<seq<Cmd>>)
    requires AllPrint(a, cmds) && AllPrint(b, more)
    ensures AllPrint(a + b, cmds + more)
  {
  }

  lemma {:induction false} SectionsAreIntended(spec: ScriptSpec)
    requires GoodScriptSpec(spec)
    ensures AllPrint(Sections(spec), Intended(spec))
  {
    var mkdir, packages, clones := MkdirCmds(spec), PackageCmds(spec), CloneCmds(spec);
    HeaderPrints();
    ChmodPrints(spec);
    OptionalSectionsPrint(spec);
    AllPrintAppend([HEADER], [[Simple(SET_E)]], MkdirSection(spec), mkdir);
    AllPrintAppend([HEADER] + MkdirSection(spec), [[Simple(SET_E)]] + mkdir, [ChmodLines(spec)], [ChmodCmds(spec)]);
    AllPrintAppend([HEADER] + MkdirSection(spec) + [ChmodLines(spec)], [[Simple(SET_E)]] + mkdir + [ChmodCmds(spec)],
                   PackageSection(spec), packages);
    AllPrintAppend([HEADER] + MkdirSection(spec) + [ChmodLines(spec)] + PackageSection(spec),
                   [[Simple(SET_E)]] + mkdir + [ChmodCmds(spec)] + packages, CloneSection(spec), clones);
  }

  /** The part of the script before the user's own. */
  function Generated(spec: ScriptSpec): string {
    Separated(Spaced(Sections(spec)), "\n")
  }

  lemma {:induction false} PrintedIsParsed(lines: seq<string>, cmds: seq<Cmd>)
    requires Prints(lines, cmds)
    ensures var lx := ReadText(FRESH, Separated(lines, "\n"));
            lx.mode == Blank && lx.word == [] && Parsed(lx.tokens) == Some(cmds)
  {
    var tokens :| AllRead(lines, tokens) && Parsed(tokens) == Some(cmds);
    assert ReadText(Lexer([], Blank, []), Separated(lines, "\n")) == Lexer([] + tokens, Blank, []);
    assert [] + tokens == tokens;
  }

  lemma GeneratedReads(spec: ScriptSpec)
    requires GoodScriptSpec(spec)
    ensures var lx := ReadText(FRESH, Generated(spec));
            lx.mode == Blank && lx.word == [] && Parsed(lx.tokens) == Some(Flatten(Intended(spec)))
  {
    SectionsAreIntended(spec);
    SectionsPrint(Sections(spec), Intended(spec));
    PrintedIsParsed(Spaced(Sections(spec)), Flatten(Intended(spec)));
  }

  lemma {:induction false} LinesWithoutUserScript(spec: ScriptSpec)
    requires UserScript(spec) == ""
    ensures Join(ScriptLines(spec), "\n") == Separated(OpenLines(spec), "\n")
  {
    var sections := Sections(spec);
    var n := |sections| - 1;
    assert sections == sections[..n] + [sections[n]];
    SpacedOne(sections[..n], sections[n]);
    assert ScriptLines(spec) == OpenLines(spec) + [""];
    JoinIsSeparated(OpenLines(spec), "", "\n");
    assert Separated(OpenLines(spec), "\n") + "" == Separated(OpenLines(spec), "\n");
  }

  /** All the generated lines but the empty one at the end. */
  function OpenLines(spec: ScriptSpec): seq<string> {
    var sections := Sections(spec);
    Spaced(sections[..|sections| - 1]) + sections[|sections| - 1]
  }

  /** Without a user script, a shell reads in the script exactly the intended commands. */
  lemma {:induction false} ScriptReads(spec: ScriptSpec)
    requires GoodScriptSpec(spec) && UserScript(spec) == ""
    ensures var script := Join(ScriptLines(spec), "\n");
            Lex(script).Some? && Parsed(Lex(script).value) == Some(Flatten(Intended(spec)))
  {
    SectionsAreIntended(spec);
    LastSectionPrints(Sections(spec), Intended(spec));
    PrintedIsParsed(OpenLines(spec), Flatten(Intended(spec)));
    LinesWithoutUserScript(spec);
  }

  /**
   With one, the script is the generated part followed by the user's text; and
   the shell starts on that text between two commands, having read exactly the
   intended ones. So no value before it can change what the user's script means.
   */
  lemma {:induction false} UserScriptComesLast(spec: ScriptSpec)
    requires GoodScriptSpec(spec) && UserScript(spec) != ""
    ensures var script := Join(ScriptLines(spec), "\n");
            var lx := ReadText(FRESH, Generated(spec));
            && script == Generated(spec) + (UserScript(spec) + "\n")
            && ReadText(FRESH, script) == ReadText(lx, UserScript(spec) + "\n")
            && lx.mode == Blank && lx.word == [] && Parsed(lx.tokens) == Some(Flatten(Intended(spec)))
  {
    var lines, user := Spaced(Sections(spec)), UserScript(spec);
    assert ScriptLines(spec) == (lines + [user]) + [""];
    JoinIsSeparated(lines + [user], "", "\n");
    SeparatedAppend(lines, [user], "\n");
    assert [user][1..] == [];
    assert Separated([user], "\n") == user + "\n" + "";
    assert user + "\n" + "" == user + "\n";
    Associative(Generated(spec), user + "\n", "");
    assert Generated(spec) + (user + "\n") + "" == Generated(spec) + (user + "\n");
    GeneratedReads(spec);
    ReadAppend(FRESH, Generated(spec), user + "\n");
  }

  // ---- What the commands install ----

  lemma ManagerInstalls(manager: Manager, pkgs: seq<string>)
    requires manager in PACKAGE_MANAGER_ORDER
    ensures InstalledByAll(InstallsFor(manager, pkgs)) == Tagged(manager, pkgs)
  {
    if pkgs != [] {
      match manager
      case Cargo => OneEachInstalls(CARGO_INSTALL, Cargo, pkgs);
      case Go => OneEachInstalls(GO_INSTALL, Go, pkgs);
      case _ =>
        InstallsItsWords(manager, pkgs);
        InstalledByOne(InstallCommand(manager, pkgs));
    }
  }

  /** Every manager's packages, in the order of the managers. */
  function Requested(order: seq<Manager>, packages: map<Manager, seq<string>>): seq<Request> {
    if order == [] then [] else Tagged(order[0], GetOr(packages, order[0])) + Requested(order[1..], packages)
  }

  lemma {:induction false} PackagesInstalled(order: seq<Manager>, packages: map<Manager, seq<string>>)
    requires forall manager | manager in order :: manager in PACKAGE_MANAGER_ORDER
    ensures InstalledByAll(PackageInstalls(order, packages)) == Requested(order, packages)
    decreases |order|
  {
    if order != [] {
      assert order[0] in order;
      var first := InstallsFor(order[0], GetOr(packages, order[0]));
      ManagerInstalls(order[0], GetOr(packages, order[0]));
      PackagesInstalled(order[1..], packages);
      CollectAppend(Installed, first, PackageInstalls(order[1..], packages));
    }
  }

  predicate NoInstalls(cmds: seq<Cmd>) {
    InstalledByAll(cmds) == []
  }

  lemma OtherCommand(words: seq<string>)
    requires words != [] && words[0] != "npm" && words[0] != "pip" && words[0] != "cargo" && words[0] != "gem"
             && words[0] != "go"
    ensures NoInstalls([Simple(words)])
  {
    InstalledByOne(Simple(words));
  }

  lemma OtherFirstWords(args: seq<string>)
    ensures NoInstalls([Simple(SET_E)]) && NoInstalls([Simple(MKDIR_P + args)]) && NoInstalls([Simple(CHMOD + args)])
    ensures NoInstalls([Simple(GIT_CONFIG + args)]) && NoInstalls([Simple(GIT_CLONE + args)])
  {
    assert "npm"[0] == 'n' && "pip"[0] == 'p' && "cargo"[1] == 'a' && "gem"[1] == 'e' && "go"[1] == 'o';
    assert "set"[0] == 's' && "mkdir"[0] == 'm' && "chmod"[1] == 'h' && "git"[1] == 'i' && "git"[0] == 'g';
    OtherCommand(SET_E);
    OtherCommand(MKDIR_P + args);
    OtherCommand(CHMOD + args);
    OtherCommand(GIT_CONFIG + args);
    OtherCommand(GIT_CLONE + args);
  }

  lemma {:induction false} ClonesInstallNothing(repos: seq<Repo>)
    ensures NoInstalls(Clones(repos))
    decreases |repos|
  {
    if repos != [] {
      OtherFirstWords([repos[0].url, repos[0].mountPath]);
      ClonesInstallNothing(repos[1..]);
      var first := [Simple(GIT_CLONE + [repos[0].url, repos[0].mountPath])];
      CollectAppend(Installed, first, Clones(repos[1..]));
      FirstClone(repos);
    }
  }

  lemma {:induction false} TwoWithNoInstalls(a: seq<Cmd>, b: seq<Cmd>)
    requires NoInstalls(a) && NoInstalls(b)
    ensures NoInstalls(a + b)
  {
    CollectAppend(Installed, a, b);
  }

  lemma {:induction false} MkdirInstallsNothing(spec: ScriptSpec)
    ensures NoInstalls(Flatten(MkdirCmds(spec)))
  {
    if Dirs(spec) != [] {
      OtherFirstWords(Dirs(spec));
      FlattenOne([Simple(MKDIR_P + Dirs(spec))]);
    }
  }

  lemma {:induction false} ChmodInstallsNothing(spec: ScriptSpec)
    ensures NoInstalls(ChmodCmds(spec))
  {
    OtherFirstWords([EnvFile.ENV_FILE_PATH]);
    OtherFirstWords([GIT_CREDS_PATH]);
    TwoWithNoInstalls([Simple(CHMOD + [EnvFile.ENV_FILE_PATH])],
                      if AnyToken(spec.repos) then [Simple(CHMOD + [GIT_CREDS_PATH])] else []);
  }

  lemma {:induction false} GitInstallsNothing(spec: ScriptSpec)
    ensures NoInstalls(Flatten(CloneCmds(spec)))
  {
    OtherFirstWords([CREDENTIAL_HELPER]);
    ClonesInstallNothing(spec.repos);
    TwoWithNoInstalls(if AnyToken(spec.repos) then [Simple(GIT_CONFIG + [CREDENTIAL_HELPER])] else [],
                      Clones(spec.repos));
    if spec.repos != [] {
      FlattenOne(GitCmds(spec));
    }
  }

  lemma FlattenOne<T>(xs: seq<T>)
    ensures Flatten([xs]) == xs
  {
    assert [xs][1..] == [];
    assert Flatten([xs]) == xs + [];
  }

  /**
   Every requested package of a known manager is installed exactly once, apt's
   first and the other managers' in order; and nothing else is.
   */
  lemma AllPackagesAptFirst(spec: ScriptSpec)
    ensures InstalledByAll(Flatten(Intended(spec)))
         == if HasPackages(spec) then Requested(PACKAGE_MANAGER_ORDER, spec.environment.value.packages) else []
  {
    var start := [[Simple(SET_E)]] + MkdirCmds(spec) + [ChmodCmds(spec)];
    MkdirInstallsNothing(spec);
    ChmodInstallsNothing(spec);
    GitInstallsNothing(spec);
    OtherFirstWords([]);
    FlattenOne([Simple(SET_E)]);
    FlattenOne(ChmodCmds(spec));
    FlattenAppend([[Simple(SET_E)]], MkdirCmds(spec));
    FlattenAppend([[Simple(SET_E)]] + MkdirCmds(spec), [ChmodCmds(spec)]);
    FlattenAppend(start, PackageCmds(spec));
    FlattenAppend(start + PackageCmds(spec), CloneCmds(spec));
    CollectAppend(Installed, [Simple(SET_E)], Flatten(MkdirCmds(spec)));
    CollectAppend(Installed, [Simple(SET_E)] + Flatten(MkdirCmds(spec)), ChmodCmds(spec));
    CollectAppend(Installed, Flatten(start), Flatten(PackageCmds(spec)));
    CollectAppend(Installed, Flatten(start) + Flatten(PackageCmds(spec)), Flatten(CloneCmds(spec)));
    if HasPackages(spec) {
      FlattenOne(PackageInstalls(PACKAGE_MANAGER_ORDER, spec.environment.value.packages));
      PackagesInstalled(PACKAGE_MANAGER_ORDER, spec.environment.value.packages);
    }
  }
}
