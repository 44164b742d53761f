/**
 What is in the provision script, told from the commands a shell reads in it:
 which they are, word by word, and that they stand in the order of the stages.
 */
module ScriptLaws {
  import opened Prelude
  import opened Decimal
  import opened Shell
  import opened ShellCommands
  import opened ScriptText
  import opened Packages
  import opened Dicts
  import opened ProvisionScript
  import EnvFile

  // ---- Reading the script back ----

  /** The commands a shell reads in the generated part of the script. */
  function ReadBack(spec: ScriptSpec): Option<seq<Cmd>> {
    Parsed(ReadText(FRESH, Generated(spec)).tokens)
  }

  lemma {:induction false} ReadBackIsIntended(spec: ScriptSpec)
    requires GoodScriptSpec(spec)
    ensures ReadBack(spec) == Some(Flatten(Intended(spec)))
  {
    GeneratedReads(spec);
  }

  /** The stages of the script, by a command's own words: 0 to 5 in the order they run, 6 for anything else. */
  function Rank(cmd: Cmd): nat {
    match cmd
    case Chain(first, second) =>
      if first == ["apt-get", "update", "-qq"] && ["apt-get", "install", "-y"] <= second then 3 else 6
    case Simple(words) =>
      if words == ["set", "-e"] then 0
      else if ["mkdir", "-p"] <= words then 1
      else if ["chmod", "600"] <= words then 2
      else if ["npm", "install", "--global"] <= words || ["pip", "install"] <= words || ["cargo", "install"] <= words
              || ["gem", "install"] <= words || ["go", "install"] <= words then 3
      else if ["git", "config", "--global", "credential.helper"] <= words then 4
      else if ["git", "clone", "--depth=1", "--quiet"] <= words then 5
      else 6
  }

  function OfRank(cmds: seq<Cmd>, rank: nat): seq<Cmd> {
    Collect((cmd: Cmd) => if Rank(cmd) == rank then [cmd] else [], cmds)
  }

  ghost predicate AllOfRank(cmds: seq<Cmd>, rank: nat) {
    forall i | 0 <= i < |cmds| :: Rank(cmds[i]) == rank
  }

  lemma {:induction false} OfRankAppend(a: seq<Cmd>, b: seq<Cmd>, rank: nat)
    ensures OfRank(a + b, rank) == OfRank(a, rank) + OfRank(b, rank)
  {
    CollectAppend((cmd: Cmd) => if Rank(cmd) == rank then [cmd] else [], a, b);
  }

  lemma {:induction false} OfOneRank(cmds: seq<Cmd>, own: nat, rank: nat)
    requires AllOfRank(cmds, own)
    ensures OfRank(cmds, rank) == if rank == own then cmds else []
    decreases |cmds|
  {
    if cmds != [] {
      OfOneRank(cmds[1..], own, rank);
      assert cmds == [cmds[0]] + cmds[1..];
    }
  }

  // ---- Each stage ----

  lemma {:induction false} FirstWords()
    ensures "set" != "mkdir" && "set" != "chmod" && "mkdir" != "chmod" && "git" !in {"set", "mkdir", "chmod"}
    ensures "config" != "clone"
  {
    assert "set"[0] == 's' && "mkdir"[0] == 'm' && "chmod"[0] == 'c' && "git"[0] == 'g' && |"config"| == 6;
  }

  lemma {:induction false} Starts(words: seq<string>, first: string)
    requires words != [] && words[0] == first
    ensures forall prefix: seq<string> | prefix != [] && prefix[0] != first :: !(prefix <= words) && prefix != words
  {
  }

  lemma {:induction false} SetRank()
    ensures Rank(Simple(SET_E)) == 0
  {
  }

  lemma {:induction false} MkdirRank(args: seq<string>)
    ensures Rank(Simple(MKDIR_P + args)) == 1
  {
    FirstWords();
    assert ["mkdir", "-p"] <= MKDIR_P + args;
    assert (MKDIR_P + args)[0] == "mkdir";
  }

  lemma {:induction false} ChmodRank(args: seq<string>)
    ensures Rank(Simple(CHMOD + args)) == 2
  {
    FirstWords();
    Starts(CHMOD + args, "chmod");
    assert ["chmod", "600"] <= CHMOD + args;
  }

  lemma {:induction false} GitRank(args: seq<string>)
    ensures Rank(Simple(GIT_CONFIG + args)) == 4 && Rank(Simple(GIT_CLONE + args)) == 5
  {
    assert "git"[0] == 'g' && "git"[1] == 'i' && "gem"[1] == 'e' && |"go"| == 2 && |"git"| == 3;
    assert "set"[0] == 's' && "mkdir"[0] == 'm' && "chmod"[0] == 'c' && "npm"[0] == 'n' && "pip"[0] == 'p';
    assert "cargo"[0] == 'c' && |"config"| == 6 && |"clone"| == 5;
    assert ["git", "config", "--global", "credential.helper"] <= GIT_CONFIG + args && (GIT_CONFIG + args)[0] == "git";
    assert ["git", "clone", "--depth=1", "--quiet"] <= GIT_CLONE + args && (GIT_CLONE + args)[0] == "git";
    assert (GIT_CLONE + args)[1] == "clone";
  }

  lemma {:induction false} InstallRank(manager: Manager, args: seq<string>)
    requires manager in PACKAGE_MANAGER_ORDER
    ensures Rank(InstallCommand(manager, args)) == 3
  {
    assert "set"[0] == 's' && "mkdir"[0] == 'm' && "chmod"[0] == 'c' && "chmod"[1] == 'h';
    assert "npm"[0] == 'n' && "pip"[0] == 'p' && "cargo"[1] == 'a' && "gem"[0] == 'g' && "go"[0] == 'g';
    match manager
    case Apt => assert ["apt-get", "install", "-y"] <= APT_INSTALL + args;
    case Npm => assert ["npm", "install", "--global"] <= NPM_INSTALL + args && (NPM_INSTALL + args)[0] == "npm";
    case Pip => assert ["pip", "install"] <= PIP_INSTALL + args && (PIP_INSTALL + args)[0] == "pip";
    case Cargo => assert ["cargo", "install"] <= CARGO_INSTALL + args && (CARGO_INSTALL + args)[0] == "cargo";
    case Gem => assert ["gem", "install"] <= GEM_INSTALL + args && (GEM_INSTALL + args)[0] == "gem";
    case Go => assert ["go", "install"] <= GO_INSTALL + args && (GO_INSTALL + args)[0] == "go";
  }

  lemma {:induction false} InstallsRank(manager: Manager, pkgs: seq<string>)
    requires manager in PACKAGE_MANAGER_ORDER
    ensures AllOfRank(InstallsFor(manager, pkgs), 3)
  {
    InstallRank(manager, pkgs);
    forall i | 0 <= i < |pkgs| ensures Rank(InstallCommand(manager, [pkgs[i]])) == 3 {
      InstallRank(manager, [pkgs[i]]);
    }
  }

  lemma {:induction false} PackageRank(order: seq<Manager>, packages: map<Manager, seq<string>>)
    requires forall manager | manager in order :: manager in PACKAGE_MANAGER_ORDER
    ensures AllOfRank(PackageInstalls(order, packages), 3)
    decreases |order|
  {
    if order != [] {
      assert order[0] in order;
      InstallsRank(order[0], GetOr(packages, order[0]));
      PackageRank(order[1..], packages);
    }
  }

  // ---- The whole script, stage by stage ----

  function Stage0(): seq<Cmd> {
    [Simple(["set", "-e"])]
  }

  function Stage1(spec: ScriptSpec): seq<Cmd> {
    if Dirs(spec) == [] then [] else [Simple(["mkdir", "-p"] + Dirs(spec))]
  }

  /** Some repository has a token, and it is not empty. */
  predicate NeedsCredentials(repos: seq<Repo>) {
    exists i | 0 <= i < |repos| :: repos[i].token.Some? && repos[i].token.value != ""
  }

  function Stage2(repos: seq<Repo>): seq<Cmd> {
    [Simple(["chmod", "600", "/tmp/aod-env"])]
    + if NeedsCredentials(repos) then [Simple(["chmod", "600", "/tmp/.git-credentials"])] else []
  }

  function PackagesOf(spec: ScriptSpec): map<Manager, seq<string>> {
    if spec.environment.Some? then spec.environment.value.packages else map[]
  }

  function Stage3(spec: ScriptSpec): seq<Cmd> {
    PackageInstalls(PACKAGE_MANAGER_ORDER, PackagesOf(spec))
  }

  function Stage4(repos: seq<Repo>): seq<Cmd> {
    if NeedsCredentials(repos)
    then [Simple(["git", "config", "--global", "credential.helper", "store --file=/tmp/.git-credentials"])]
    else []
  }

  function Stage5(repos: seq<Repo>): seq<Cmd> {
    seq(|repos|, i requires 0 <= i < |repos| =>
      Simple(["git", "clone", "--depth=1", "--quiet", repos[i].url, repos[i].mountPath]))
  }

  lemma {:induction false} TokensAreNeeded(repos: seq<Repo>)
    ensures AnyToken(repos) <==> NeedsCredentials(repos)
  {
    if repo :| repo in repos && Truthy(repo.token) {
      var i :| 0 <= i < |repos| && repos[i] == repo;
    }
    if i :| 0 <= i < |repos| && repos[i].token.Some? && repos[i].token.value != "" {
      assert repos[i] in repos;
    }
  }

  lemma {:induction false} StagesRank(spec: ScriptSpec)
    ensures AllOfRank(Stage0(), 0) && AllOfRank(Stage1(spec), 1) && AllOfRank(Stage2(spec.repos), 2)
    ensures AllOfRank(Stage4(spec.repos), 4)
  {
    SetRank();
    MkdirRank(Dirs(spec));
    ChmodRank(["/tmp/aod-env"]);
    ChmodRank(["/tmp/.git-credentials"]);
    GitRank(["store --file=/tmp/.git-credentials"]);
    assert CHMOD + ["/tmp/aod-env"] == ["chmod", "600", "/tmp/aod-env"];
    assert CHMOD + ["/tmp/.git-credentials"] == ["chmod", "600", "/tmp/.git-credentials"];
    assert GIT_CONFIG + ["store --file=/tmp/.git-credentials"]
        == ["git", "config", "--global", "credential.helper", "store --file=/tmp/.git-credentials"];
  }

  lemma {:induction false} NoPackagesNoInstalls(order: seq<Manager>)
    ensures PackageInstalls(order, map[]) == []
    decreases |order|
  {
    if order != [] {
      NoPackagesNoInstalls(order[1..]);
    }
  }

  lemma {:induction false} GitIsTwoStages(spec: ScriptSpec)
    ensures Flatten(CloneCmds(spec)) == Stage4(spec.repos) + Stage5(spec.repos)
  {
    TokensAreNeeded(spec.repos);
    assert Clones(spec.repos) == Stage5(spec.repos) by {
      forall i | 0 <= i < |spec.repos| ensures Clones(spec.repos)[i] == Stage5(spec.repos)[i] {
        var repo := spec.repos[i];
        assert GIT_CLONE + [repo.url, repo.mountPath]
            == ["git", "clone", "--depth=1", "--quiet", repo.url, repo.mountPath];
      }
    }
    assert GIT_CONFIG + [CREDENTIAL_HELPER]
        == ["git", "config", "--global", "credential.helper", "store --file=/tmp/.git-credentials"];
    if spec.repos != [] {
      FlattenOne(GitCmds(spec));
    }
  }

  lemma {:induction false} FirstStages(spec: ScriptSpec)
    ensures Flatten(MkdirCmds(spec)) == Stage1(spec) && ChmodCmds(spec) == Stage2(spec.repos)
    ensures Flatten(PackageCmds(spec)) == Stage3(spec)
  {
    TokensAreNeeded(spec.repos);
    NoPackagesNoInstalls(PACKAGE_MANAGER_ORDER);
    assert CHMOD + [EnvFile.ENV_FILE_PATH] == ["chmod", "600", "/tmp/aod-env"];
    assert CHMOD + [GIT_CREDS_PATH] == ["chmod", "600", "/tmp/.git-credentials"];
    if Dirs(spec) != [] {
      FlattenOne([Simple(MKDIR_P + Dirs(spec))]);
    }
    if HasPackages(spec) {
      FlattenOne(PackageInstalls(PACKAGE_MANAGER_ORDER, PackagesOf(spec)));
    }
  }

  lemma {:induction false} ScriptIsStages(spec: ScriptSpec)
    ensures Flatten(Intended(spec))
         == Stage0() + Stage1(spec) + Stage2(spec.repos) + Stage3(spec) + (Stage4(spec.repos) + Stage5(spec.repos))
  {
    var start, mkdir, chmod := [[Simple(SET_E)]], MkdirCmds(spec), [ChmodCmds(spec)];
    FirstStages(spec);
    GitIsTwoStages(spec);
    FlattenOne([Simple(SET_E)]);
    FlattenOne(ChmodCmds(spec));
    FlattenAppend(start, mkdir);
    FlattenAppend(start + mkdir, chmod);
    FlattenAppend(start + mkdir + chmod, PackageCmds(spec));
    FlattenAppend(start + mkdir + chmod + PackageCmds(spec), CloneCmds(spec));
  }

  ghost predicate InOrder(cmds: seq<Cmd>) {
    forall i, j | 0 <= i < j < |cmds| :: Rank(cmds[i]) <= Rank(cmds[j])
  }

  ghost predicate AtMost(cmds: seq<Cmd>, rank: nat) {
    forall i | 0 <= i < |cmds| :: Rank(cmds[i]) <= rank
  }

  lemma {:induction false} OrderedAppend(a: seq<Cmd>, b: seq<Cmd>, rank: nat, next: nat)
    requires InOrder(a) && AtMost(a, rank) && AllOfRank(b, next) && rank <= next
    ensures InOrder(a + b) && AtMost(a + b, next)
  {
  }

  ghost predicate Ranked(s0: seq<Cmd>, s1: seq<Cmd>, s2: seq<Cmd>, s3: seq<Cmd>, s4: seq<Cmd>, s5: seq<Cmd>) {
    AllOfRank(s0, 0) && AllOfRank(s1, 1) && AllOfRank(s2, 2) && AllOfRank(s3, 3) && AllOfRank(s4, 4) && AllOfRank(s5, 5)
  }

  lemma {:induction false} SixInOrder(
    s0: seq<Cmd>, s1: seq<Cmd>, s2: seq<Cmd>, s3: seq<Cmd>, s4: seq<Cmd>, s5: seq<Cmd>)
    requires Ranked(s0, s1, s2, s3, s4, s5)
    ensures InOrder(s0 + s1 + s2 + s3 + (s4 + s5)) && AtMost(s0 + s1 + s2 + s3 + (s4 + s5), 5)
  {
    OrderedAppend(s0, s1, 0, 1);
    OrderedAppend(s0 + s1, s2, 1, 2);
    OrderedAppend(s0 + s1 + s2, s3, 2, 3);
    OrderedAppend(s0 + s1 + s2 + s3, s4, 3, 4);
    OrderedAppend(s0 + s1 + s2 + s3 + s4, s5, 4, 5);
    Associative(s0 + s1 + s2 + s3, s4, s5);
  }

  lemma {:induction false} FourApart(s0: seq<Cmd>, s1: seq<Cmd>, s2: seq<Cmd>, s3: seq<Cmd>, rank: nat)
    requires AllOfRank(s0, 0) && AllOfRank(s1, 1) && AllOfRank(s2, 2) && AllOfRank(s3, 3)
    ensures OfRank(s0 + s1 + s2 + s3, rank)
         == if rank == 0 then s0 else if rank == 1 then s1 else if rank == 2 then s2 else if rank == 3 then s3 else []
  {
    TwoApart(s0, 0, s1, 1, rank);
    TwoApart(s2, 2, s3, 3, rank);
    OfRankAppend(s0 + s1, s2 + s3, rank);
    Associative(s0 + s1, s2, s3);
    EmptyAround(OfRank(s0 + s1, rank));
    EmptyAround(OfRank(s2 + s3, rank));
  }

  lemma {:induction false} SixApart(
    s0: seq<Cmd>, s1: seq<Cmd>, s2: seq<Cmd>, s3: seq<Cmd>, s4: seq<Cmd>, s5: seq<Cmd>, rank: nat)
    requires Ranked(s0, s1, s2, s3, s4, s5) && rank <= 5
    ensures OfRank(s0 + s1 + s2 + s3 + (s4 + s5), rank) == Pick(s0, s1, s2, s3, s4, s5, rank)
  {
    var first, last := s0 + s1 + s2 + s3, s4 + s5;
    FourApart(s0, s1, s2, s3, rank);
    TwoApart(s4, 4, s5, 5, rank);
    OfRankAppend(first, last, rank);
    EmptyAround(OfRank(first, rank));
    EmptyAround(OfRank(last, rank));
  }

  function Pick<T>(s0: T, s1: T, s2: T, s3: T, s4: T, s5: T, rank: nat): T {
    if rank == 0 then s0 else if rank == 1 then s1 else if rank == 2 then s2
    else if rank == 3 then s3 else if rank == 4 then s4 else s5
  }

  lemma EmptyAround(cmds: seq<Cmd>)
    ensures [] + cmds == cmds == cmds + []
  {
  }

  lemma {:induction false} TwoApart(a: seq<Cmd>, ra: nat, b: seq<Cmd>, rb: nat, rank: nat)
    requires AllOfRank(a, ra) && AllOfRank(b, rb) && ra != rb
    ensures OfRank(a + b, rank) == if rank == ra then a else if rank == rb then b else []
  {
    OfOneRank(a, ra, rank);
    OfOneRank(b, rb, rank);
    OfRankAppend(a, b, rank);
  }

  lemma {:induction false} StagesAreRanked(spec: ScriptSpec)
    ensures Ranked(Stage0(), Stage1(spec), Stage2(spec.repos), Stage3(spec), Stage4(spec.repos), Stage5(spec.repos))
  {
    StagesRank(spec);
    PackageRank(PACKAGE_MANAGER_ORDER, PackagesOf(spec));
    forall i | 0 <= i < |spec.repos| ensures Rank(Stage5(spec.repos)[i]) == 5 {
      var repo := spec.repos[i];
      GitRank([repo.url, repo.mountPath]);
      assert GIT_CLONE + [repo.url, repo.mountPath]
          == ["git", "clone", "--depth=1", "--quiet", repo.url, repo.mountPath];
    }
  }

  /** The commands of one stage, as they are read back. */
  lemma {:induction false} StageIs(spec: ScriptSpec, rank: nat)
    requires GoodScriptSpec(spec) && rank <= 5
    ensures ReadBack(spec).Some?
    ensures OfRank(ReadBack(spec).value, rank)
         == Pick(Stage0(), Stage1(spec), Stage2(spec.repos), Stage3(spec), Stage4(spec.repos), Stage5(spec.repos), rank)
  {
    ReadBackIsIntended(spec);
    ScriptIsStages(spec);
    StagesAreRanked(spec);
    SixApart(Stage0(), Stage1(spec), Stage2(spec.repos), Stage3(spec), Stage4(spec.repos), Stage5(spec.repos), rank);
  }

  // ---- The laws ----

  /**
   A shell reads nothing but commands of the six stages, and reads them in
   order: set -e, directories, file modes, packages, credentials, clones.
   */
  lemma {:induction false} StagesInOrder(spec: ScriptSpec)
    requires GoodScriptSpec(spec)
    ensures ReadBack(spec).Some? && InOrder(ReadBack(spec).value) && AtMost(ReadBack(spec).value, 5)
    ensures OfRank(ReadBack(spec).value, 0) == [Simple(["set", "-e"])]
  {
    ReadBackIsIntended(spec);
    ScriptIsStages(spec);
    StagesAreRanked(spec);
    SixInOrder(Stage0(), Stage1(spec), Stage2(spec.repos), Stage3(spec), Stage4(spec.repos), Stage5(spec.repos));
    StageIs(spec, 0);
  }

  /**
   The credential helper is configured, and the credentials file made private,
   exactly when some repository has a non-empty token; the environment file is
   made private always; and no other mode is changed.
   */
  lemma {:induction false} CredentialsIff(spec: ScriptSpec)
    requires GoodScriptSpec(spec)
    ensures ReadBack(spec).Some?
    ensures var cmds := ReadBack(spec).value;
            var file, helper := "/tmp/.git-credentials", "store --file=/tmp/.git-credentials";
            if exists i | 0 <= i < |spec.repos| :: spec.repos[i].token.Some? && spec.repos[i].token.value != "" then
              && OfRank(cmds, 2) == [Simple(["chmod", "600", "/tmp/aod-env"]), Simple(["chmod", "600", file])]
              && OfRank(cmds, 4) == [Simple(["git", "config", "--global", "credential.helper", helper])]
            else OfRank(cmds, 2) == [Simple(["chmod", "600", "/tmp/aod-env"])] && OfRank(cmds, 4) == []
  {
    StageIs(spec, 2);
    StageIs(spec, 4);
  }

  /** Every repository is cloned once, in order, to its own path; and nothing else is. */
  lemma {:induction false} ReposAreCloned(spec: ScriptSpec)
    requires GoodScriptSpec(spec)
    ensures ReadBack(spec).Some? && |OfRank(ReadBack(spec).value, 5)| == |spec.repos|
    ensures forall i | 0 <= i < |spec.repos| ::
              OfRank(ReadBack(spec).value, 5)[i]
              == Simple(["git", "clone", "--depth=1", "--quiet", spec.repos[i].url, spec.repos[i].mountPath])
  {
    StageIs(spec, 5);
  }

  /** A directory that something will be written to after the script: the runtime's own, or an inline skill's. */
  ghost predicate IsWrittenTo(spec: ScriptSpec, dir: string) {
    || (spec.runtimeName == "codex" && dir == "/home/sprite/.codex")
    || (spec.runtimeName == "gemini" && spec.hasMcpServers && dir == "/home/sprite/.gemini")
    || (spec.runtimeName == "opencode" && spec.hasMcpServers && dir == "/home/sprite/.config/opencode")
    || (spec.skillsRoot.Some? && spec.skillsRoot.value != ""
        && exists i | 0 <= i < |spec.skills| ::
             spec.skills[i].content.Some? && dir == spec.skillsRoot.value + "/" + spec.skills[i].name)
  }

  lemma {:induction false} SkillDirsAre(root: string, skills: seq<Skill>)
    ensures forall dir :: dir in SkillDirs(root, skills) <==>
              exists i | 0 <= i < |skills| :: skills[i].content.Some? && dir == root + "/" + skills[i].name
  {
    if skills != [] {
      var rest := skills[1..];
      SkillDirsAre(root, rest);
      forall dir
        ensures dir in SkillDirs(root, skills) <==>
                exists i | 0 <= i < |skills| :: skills[i].content.Some? && dir == root + "/" + skills[i].name
      {
        if dir in SkillDirs(root, rest) {
          var i :| 0 <= i < |rest| && rest[i].content.Some? && dir == root + "/" + rest[i].name;
          assert skills[i + 1].content.Some?;
        }
        if i :| 0 <= i < |skills| && skills[i].content.Some? && dir == root + "/" + skills[i].name {
          if i > 0 {
            assert rest[i - 1].content.Some?;
          }
        }
      }
    }
  }

  lemma {:induction false} DirectoriesAre(spec: ScriptSpec)
    ensures forall dir :: dir in DirectoriesForPostScriptWrites(spec) <==> IsWrittenTo(spec, dir)
  {
    assert "codex"[0] == 'c' && "gemini"[0] == 'g' && "opencode"[0] == 'o';
    if spec.skillsRoot.Some? {
      SkillDirsAre(spec.skillsRoot.value, spec.skills);
    }
  }

  ghost predicate SortedUp(s: seq<string>) {
    forall i, j | 0 <= i < j < |s| :: !Less(s[j], s[i])
  }

  lemma {:induction false} InsertStaysSorted(x: string, s: seq<string>)
    requires SortedUp(s)
    ensures SortedUp(InsertBy(Less, x, s))
  {
    if s == [] {
    } else if !Less(s[0], x) {
      forall j | 0 <= j < |s| ensures !Less(s[j], x) {
        LessIsTotal(s[0], x);
        if Less(s[j], x) && x != s[0] {
          LessIsTransitive(s[j], x, s[0]);
        }
      }
    } else {
      var r := InsertBy(Less, x, s[1..]);
      InsertStaysSorted(x, s[1..]);
      InsertKeeps(Less, x, s[1..]);
      LessIsTotal(s[0], x);
      forall j | 0 <= j < |r| ensures !Less(r[j], s[0]) {
        assert r[j] in multiset(r);
      }
    }
  }

  lemma {:induction false} SortedDirs(dirs: seq<string>)
    ensures SortedUp(SortBy(Less, dirs))
  {
    if dirs != [] {
      SortedDirs(dirs[1..]);
      InsertStaysSorted(dirs[0], SortBy(Less, dirs[1..]));
    }
  }

  /** Exactly the directories that will be written to are made, in one sorted command; none, and there is no command. */
  lemma {:induction false} DirectoriesAreMade(spec: ScriptSpec)
    requires GoodScriptSpec(spec)
    ensures ReadBack(spec).Some?
    ensures var cmds := OfRank(ReadBack(spec).value, 1);
            if (exists dir :: IsWrittenTo(spec, dir)) then
              |cmds| == 1 && cmds[0].Simple? && |cmds[0].words| >= 2
              && cmds[0].words[..2] == ["mkdir", "-p"]
              && SortedUp(cmds[0].words[2..])
              && (forall dir :: dir in cmds[0].words[2..] <==> IsWrittenTo(spec, dir))
            else cmds == []
  {
    StageIs(spec, 1);
    DirectoriesAre(spec);
    SortKeeps(Less, DirectoriesForPostScriptWrites(spec));
    SameStrings(Dirs(spec), DirectoriesForPostScriptWrites(spec));
    SortedDirs(DirectoriesForPostScriptWrites(spec));
    if Dirs(spec) != [] {
      assert Dirs(spec)[0] in Dirs(spec);
      assert (["mkdir", "-p"] + Dirs(spec))[2..] == Dirs(spec);
    }
  }

  lemma {:induction false} SameStrings(a: seq<string>, b: seq<string>)
    requires multiset(a) == multiset(b)
    ensures forall x :: x in a <==> x in b
  {
    assert forall x :: x in a <==> x in multiset(a);
  }

  /** What the session asks of a manager. */
  function Wanted(spec: ScriptSpec, manager: Manager): seq<string> {
    if spec.environment.Some? && manager in spec.environment.value.packages
    then spec.environment.value.packages[manager] else []
  }

  lemma {:induction false} RequestedIs(spec: ScriptSpec)
    ensures Requested(PACKAGE_MANAGER_ORDER, PackagesOf(spec))
         == Tagged(Apt, Wanted(spec, Apt)) + Tagged(Cargo, Wanted(spec, Cargo)) + Tagged(Gem, Wanted(spec, Gem))
          + Tagged(Go, Wanted(spec, Go)) + Tagged(Npm, Wanted(spec, Npm)) + Tagged(Pip, Wanted(spec, Pip))
  {
    var packages := PackagesOf(spec);
    forall manager ensures GetOr(packages, manager) == Wanted(spec, manager) {
    }
    assert [] + Tagged(Apt, Wanted(spec, Apt)) == Tagged(Apt, Wanted(spec, Apt));
    RequestedMore([], Apt, packages);
    RequestedMore([Apt], Cargo, packages);
    RequestedMore([Apt, Cargo], Gem, packages);
    RequestedMore([Apt, Cargo, Gem], Go, packages);
    RequestedMore([Apt, Cargo, Gem, Go], Npm, packages);
    RequestedMore([Apt, Cargo, Gem, Go, Npm], Pip, packages);
    SixManagers();
  }

  lemma SixManagers()
    ensures [] + [Apt] == [Apt] && [Apt] + [Cargo] == [Apt, Cargo] && [Apt, Cargo] + [Gem] == [Apt, Cargo, Gem]
    ensures [Apt, Cargo, Gem] + [Go] == [Apt, Cargo, Gem, Go]
    ensures [Apt, Cargo, Gem, Go] + [Npm] == [Apt, Cargo, Gem, Go, Npm]
    ensures [Apt, Cargo, Gem, Go, Npm] + [Pip] == PACKAGE_MANAGER_ORDER
  {
  }

  lemma {:induction false} RequestedMore(order: seq<Manager>, manager: Manager, packages: map<Manager, seq<string>>)
    ensures Requested(order + [manager], packages)
         == Requested(order, packages) + Tagged(manager, GetOr(packages, manager))
    decreases |order|
  {
    var last := Tagged(manager, GetOr(packages, manager));
    if order == [] {
      assert [] + [manager] == [manager] && [manager][1..] == [];
      assert last + [] == last == [] + last;
    } else {
      assert (order + [manager])[0] == order[0] && (order + [manager])[1..] == order[1..] + [manager];
      RequestedMore(order[1..], manager, packages);
      Associative(Tagged(order[0], GetOr(packages, order[0])), Requested(order[1..], packages), last);
    }
  }

  lemma {:induction false} NothingRequested(order: seq<Manager>)
    ensures Requested(order, map[]) == []
    decreases |order|
  {
    if order != [] {
      NothingRequested(order[1..]);
      assert Tagged(order[0], []) == [];
    }
  }

  /**
   Every package asked for is installed once, by its manager's own command;
   apt's come first, then those of cargo, gem, go, npm and pip; and nothing
   else is installed.
   */
  lemma {:induction false} PackagesAreInstalled(spec: ScriptSpec)
    requires GoodScriptSpec(spec)
    ensures ReadBack(spec).Some?
    ensures InstalledByAll(ReadBack(spec).value)
         == Tagged(Apt, Wanted(spec, Apt)) + Tagged(Cargo, Wanted(spec, Cargo)) + Tagged(Gem, Wanted(spec, Gem))
          + Tagged(Go, Wanted(spec, Go)) + Tagged(Npm, Wanted(spec, Npm)) + Tagged(Pip, Wanted(spec, Pip))
  {
    ReadBackIsIntended(spec);
    AllPackagesAptFirst(spec);
    NothingRequested(PACKAGE_MANAGER_ORDER);
    RequestedIs(spec);
  }

  /** A user script that is more than spaces is the script's last line, without the spaces around it. */
  lemma {:induction false} UsersTextIsLast(spec: ScriptSpec, text: string)
    requires GoodScriptSpec(spec) && Strip(text) != ""
    requires spec.environment.Some? && spec.environment.value.setupScript == Some(text)
    ensures Join(ScriptLines(spec), "\n") == Generated(spec) + (Strip(text) + "\n")
  {
    UserScriptComesLast(spec);
  }

  /** With no user script, or an empty one, the whole script reads as those commands. */
  lemma {:induction false} NothingElseIsRead(spec: ScriptSpec)
    requires GoodScriptSpec(spec)
    requires spec.environment.Some? && spec.environment.value.setupScript.Some? ==>
               Strip(spec.environment.value.setupScript.value) == ""
    ensures var script := Join(ScriptLines(spec), "\n");
            Lex(script).Some? && Parsed(Lex(script).value) == ReadBack(spec)
  {
    ReadBackIsIntended(spec);
    ScriptReads(spec);
  }
}
