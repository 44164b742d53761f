/** The install commands of each package manager (provisioning/package_commands.py). */
module Packages {
  import opened Prelude
  import opened Shell
  import opened ScriptText

  datatype Manager = Apt | Cargo | Gem | Go | Npm | Pip | Other(name: string)

  const PACKAGE_MANAGER_ORDER: seq<Manager> := [Apt, Cargo, Gem, Go, Npm, Pip]

  const APT_UPDATE: seq<string> := ["apt-get", "update", "-qq"]
  const APT_INSTALL: seq<string> := ["apt-get", "install", "-y"]
  const CARGO_INSTALL: seq<string> := ["cargo", "install"]
  const GEM_INSTALL: seq<string> := ["gem", "install"]
  const GO_INSTALL: seq<string> := ["go", "install"]
  const NPM_INSTALL: seq<string> := ["npm", "install", "--global"]
  const PIP_INSTALL: seq<string> := ["pip", "install"]

  function OneEach(words: seq<string>, pkgs: seq<string>): seq<Cmd> {
    seq(|pkgs|, i requires 0 <= i < |pkgs| => Simple(words + [pkgs[i]]))
  }

  /** The commands that install a manager's packages; None for a manager that is not known. */
  function Installs(manager: Manager, pkgs: seq<string>): Option<seq<Cmd>> {
    match manager
    case Apt => Some([Chain(APT_UPDATE, APT_INSTALL + pkgs)])
    case Pip => Some([Simple(PIP_INSTALL + pkgs)])
    case Npm => Some([Simple(NPM_INSTALL + pkgs)])
    case Cargo => Some(OneEach(CARGO_INSTALL, pkgs))
    case Gem => Some([Simple(GEM_INSTALL + pkgs)])
    case Go => Some(OneEach(GO_INSTALL, pkgs))
    case Other(_) => None
  }

  function PackageCommands(manager: Manager, pkgs: seq<string>): Result<seq<string>, string> {
    match manager
    case Apt => Ok([Join(APT_UPDATE, " ") + " && " + Fixed(APT_INSTALL) + JoinQuoted(pkgs)])
    case Pip => Ok([Fixed(PIP_INSTALL) + JoinQuoted(pkgs)])
    case Npm => Ok([Fixed(NPM_INSTALL) + JoinQuoted(pkgs)])
    case Cargo => Ok(QuotedEach(CARGO_INSTALL, pkgs))
    case Gem => Ok([Fixed(GEM_INSTALL) + JoinQuoted(pkgs)])
    case Go => Ok(QuotedEach(GO_INSTALL, pkgs))
    case Other(name) => Err("Unsupported package manager: " + name)
  }

  // ---- Packages ----

  lemma {:induction false} FirstQuoted(words: seq<string>, pkgs: seq<string>)
    ensures pkgs == [] ==> QuotedEach(words, pkgs) == []
    ensures pkgs != [] ==> QuotedEach(words, pkgs) == [QuotedLine(words, pkgs[0])] + QuotedEach(words, pkgs[1..])
  {
  }

  lemma FirstOfEach(fixed: seq<string>, pkgs: seq<string>)
    ensures pkgs == [] ==> OneEach(fixed, pkgs) == []
    ensures pkgs != [] ==> OneEach(fixed, pkgs) == [Simple(fixed + [pkgs[0]])] + OneEach(fixed, pkgs[1..])
  {
  }

  lemma {:induction false} OneLineEach(fixed: seq<string>, pkgs: seq<string>)
    requires AllSafe(fixed) && NoNuls(pkgs)
    ensures Prints(QuotedEach(fixed, pkgs), OneEach(fixed, pkgs))
    decreases |pkgs|
  {
    FirstQuoted(fixed, pkgs);
    FirstOfEach(fixed, pkgs);
    if pkgs == [] {
      NoLines();
    } else {
      assert pkgs[0] in pkgs;
      OneLine(fixed, pkgs[0]);
      OneLineEach(fixed, pkgs[1..]);
      PrintsAppend([QuotedLine(fixed, pkgs[0])], [Simple(fixed + [pkgs[0]])],
                   QuotedEach(fixed, pkgs[1..]), OneEach(fixed, pkgs[1..]));
    }
  }

  lemma {:induction false} AptWordsAreSafe()
    ensures AllSafe(APT_UPDATE) && AllSafe(APT_INSTALL)
  {
    assert Safe("apt-get") && Safe("update") && Safe("-qq") && Safe("install") && Safe("-y");
  }

  lemma {:induction false} CargoGemGoWordsAreSafe()
    ensures AllSafe(CARGO_INSTALL) && AllSafe(GEM_INSTALL) && AllSafe(GO_INSTALL)
  {
    assert Safe("cargo") && Safe("gem") && Safe("go") && Safe("install");
  }

  lemma {:induction false} NpmPipWordsAreSafe()
    ensures AllSafe(NPM_INSTALL) && AllSafe(PIP_INSTALL)
  {
    assert Safe("npm") && Safe("pip") && Safe("install") && Safe("--global");
  }

  /**
   Each manager's lines are read as its install commands, with one word for each
   package, whatever the packages are called and however many.
   */
  lemma {:induction false} PackageCommandsRead(manager: Manager, pkgs: seq<string>)
    requires NoNuls(pkgs)
    ensures PackageCommands(manager, pkgs).Ok? <==> manager in PACKAGE_MANAGER_ORDER
    ensures Installs(manager, pkgs).Some? <==> manager in PACKAGE_MANAGER_ORDER
    ensures manager in PACKAGE_MANAGER_ORDER ==>
              Prints(PackageCommands(manager, pkgs).value, Installs(manager, pkgs).value)
  {
    AptWordsAreSafe();
    CargoGemGoWordsAreSafe();
    NpmPipWordsAreSafe();
    match manager
    case Apt => ChainedLine(APT_UPDATE, APT_INSTALL, pkgs);
    case Pip => FixedLine(PIP_INSTALL, pkgs);
    case Npm => FixedLine(NPM_INSTALL, pkgs);
    case Cargo => OneLineEach(CARGO_INSTALL, pkgs);
    case Gem => FixedLine(GEM_INSTALL, pkgs);
    case Go => OneLineEach(GO_INSTALL, pkgs);
    case Other(_) =>
  }

  // ---- What the commands install ----

  type Request = (Manager, string)

  function Tagged(manager: Manager, pkgs: seq<string>): seq<Request> {
    seq(|pkgs|, i requires 0 <= i < |pkgs| => (manager, pkgs[i]))
  }

  /** The packages a command asks a manager for, told from its words. */
  function Installed(cmd: Cmd): seq<Request> {
    match cmd
    case Chain(first, second) =>
      if first == ["apt-get", "update", "-qq"] && ["apt-get", "install", "-y"] <= second
      then Tagged(Apt, second[3..]) else []
    case Simple(words) =>
      if ["npm", "install", "--global"] <= words then Tagged(Npm, words[3..])
      else if ["pip", "install"] <= words then Tagged(Pip, words[2..])
      else if ["cargo", "install"] <= words then Tagged(Cargo, words[2..])
      else if ["gem", "install"] <= words then Tagged(Gem, words[2..])
      else if ["go", "install"] <= words then Tagged(Go, words[2..])
      else []
  }

  function InstalledByAll(cmds: seq<Cmd>): seq<Request> {
    Collect(Installed, cmds)
  }

  lemma InstalledByOne(cmd: Cmd)
    ensures InstalledByAll([cmd]) == Installed(cmd)
  {
    CollectOne(Installed, cmd);
  }

  lemma FirstWordsDiffer()
    ensures "npm" != "pip" && "npm" != "cargo" && "npm" != "gem" && "npm" != "go"
    ensures "pip" != "cargo" && "pip" != "gem" && "pip" != "go"
    ensures "cargo" != "gem" && "cargo" != "go" && "gem" != "go"
  {
    assert "npm"[0] == 'n' && "pip"[0] == 'p' && "cargo"[0] == 'c' && "gem"[0] == 'g' && |"gem"| != |"go"|;
  }

  lemma StartsWith(prefix: seq<string>, args: seq<string>)
    requires prefix != []
    ensures prefix <= prefix + args && (prefix + args)[|prefix|..] == args && (prefix + args)[0] == prefix[0]
  {
  }

  function InstallCommand(manager: Manager, args: seq<string>): Cmd {
    match manager
    case Apt => Chain(APT_UPDATE, APT_INSTALL + args)
    case Npm => Simple(NPM_INSTALL + args)
    case Pip => Simple(PIP_INSTALL + args)
    case Cargo => Simple(CARGO_INSTALL + args)
    case Gem => Simple(GEM_INSTALL + args)
    case Go => Simple(GO_INSTALL + args)
    case Other(_) => Simple(args)
  }

  lemma {:induction false} InstallsItsWords(manager: Manager, args: seq<string>)
    requires manager in PACKAGE_MANAGER_ORDER
    ensures Installed(InstallCommand(manager, args)) == Tagged(manager, args)
  {
    FirstWordsDiffer();
    match manager
    case Apt => StartsWith(APT_INSTALL, args);
    case Npm => StartsWith(NPM_INSTALL, args);
    case Pip => StartsWith(PIP_INSTALL, args);
    case Cargo => StartsWith(CARGO_INSTALL, args);
    case Gem => StartsWith(GEM_INSTALL, args);
    case Go => StartsWith(GO_INSTALL, args);
  }

  lemma {:induction false} OneEachInstalls(words: seq<string>, manager: Manager, pkgs: seq<string>)
    requires manager in PACKAGE_MANAGER_ORDER && forall pkg :: InstallCommand(manager, [pkg]) == Simple(words + [pkg])
    ensures InstalledByAll(OneEach(words, pkgs)) == Tagged(manager, pkgs)
    decreases |pkgs|
  {
    FirstOfEach(words, pkgs);
    if pkgs != [] {
      OneEachInstalls(words, manager, pkgs[1..]);
      InstallsItsWords(manager, [pkgs[0]]);
      FirstTagged(manager, pkgs);
    }
  }

  lemma FirstTagged(manager: Manager, pkgs: seq<string>)
    requires pkgs != []
    ensures Tagged(manager, pkgs) == Tagged(manager, [pkgs[0]]) + Tagged(manager, pkgs[1..])
  {
  }
}
