/**
 What a shell does with the commands of this fragment (POSIX.1-2017 XCU section
 2.9.1; `source` and `set -a` as bash has them).
 */
module ShellRun {
  import opened Prelude
  import opened Shell
  import opened ShellCommands
  import opened Dicts

  /** A shell with its variables; or what it turned into. Unknown: it left the fragment. */
  datatype Machine =
    | Running(vars: map<string, string>, exported: set<string>, allExport: bool)
    | Replaced(argv: seq<string>, env: map<string, string>)
    | Unknown

  type Runner = (Machine, Command) -> Machine

  predicate NameStart(c: char) {
    'a' <= c <= 'z' || 'A' <= c <= 'Z' || c == '_'
  }

  predicate NameChar(c: char) {
    NameStart(c) || '0' <= c <= '9'
  }

  /** [A-Za-z_][A-Za-z0-9_]* */
  predicate Identifier(s: string) {
    s != "" && NameStart(s[0]) && forall i | 0 <= i < |s| :: NameChar(s[i])
  }

  /** The pieces before the first unquoted `=`, when they are all unquoted name characters. */
  function NameLength(pieces: seq<Piece>): (k: nat)
    ensures k <= |pieces|
  {
    if pieces != [] && pieces[0].Lit? && !pieces[0].quoted && NameChar(pieces[0].c) then 1 + NameLength(pieces[1..])
    else 0
  }

  function AssignmentOf(pieces: seq<Piece>): Option<Item> {
    var k := NameLength(pieces);
    if k == 0 || k == |pieces| || pieces[k] != Lit('=', false) then None
    else
      var name, value := TextOf(pieces[..k]), TextOf(pieces[k + 1..]);
      if name.None? || value.None? || !Identifier(name.value) then None else Some((name.value, value.value))
  }

  function Assign(m: Machine, name: string, value: string): Machine {
    if m.Running? then
      m.(vars := m.vars[name := value], exported := if m.allExport then m.exported + {name} else m.exported)
    else m
  }

  function Exported(m: Machine): map<string, string>
    requires m.Running?
  {
    map name | name in m.exported && name in m.vars :: m.vars[name]
  }

  /** A simple command other than `source`. */
  function RunCommand(m: Machine, words: Command, args: seq<string>): Machine {
    if !m.Running? then m
    else if |words| == 1 && AssignmentOf(words[0]).Some? then
      var item := AssignmentOf(words[0]).value;
      Assign(m, item.0, item.1)
    else if |words| == 2 && words[0] == Lits("set", false) && words[1] == Lits("-a", false) then m.(allExport := true)
    else if |words| == 2 && words[0] == Lits("set", false) && words[1] == Lits("+a", false) then m.(allExport := false)
    else if |words| == 2 && words[0] == Lits("exec", false) && words[1] == [AllArgs] then
      if args == [] then m else Replaced(args, Exported(m))
    else Unknown
  }

  /** The commands of a token list, separated by newlines and semicolons, run one after another. */
  function RunTokens(run: Runner, m: Machine, words: Command, tokens: seq<Token>): Machine
    decreases |tokens|
  {
    if tokens == [] then (if words == [] then m else run(m, words))
    else
      match tokens[0]
      case Word(pieces) => RunTokens(run, m, words + [pieces], tokens[1..])
      case Newline => RunTokens(run, if words == [] then m else run(m, words), [], tokens[1..])
      case Semicolon => if words == [] then Unknown else RunTokens(run, run(m, words), [], tokens[1..])
      case Ampersand => Unknown
      case AndIf => Unknown
  }

  function Commands(args: seq<string>): Runner {
    (m: Machine, words: Command) => RunCommand(m, words, args)
  }

  function RunFile(m: Machine, text: string, args: seq<string>): Machine {
    match Lex(text)
    case None => Unknown
    case Some(tokens) => RunTokens(Commands(args), m, [], tokens)
  }

  /** Commands that may also source a file. */
  function CommandsAndSource(files: map<string, string>, args: seq<string>): Runner {
    (m: Machine, words: Command) =>
      if m.Running? && |words| == 2 && words[0] == Lits("source", false) then
        var path := TextOf(words[1]);
        if path.None? || path.value !in files then Unknown else RunFile(m, files[path.value], args)
      else RunCommand(m, words, args)
  }

  /** `bash -lc text name args...`, in an environment where the login files have been read. */
  function RunShell(env: map<string, string>, text: string, files: map<string, string>, args: seq<string>): Machine {
    match Lex(text)
    case None => Unknown
    case Some(tokens) => RunTokens(CommandsAndSource(files, args), Running(env, env.Keys, false), [], tokens)
  }

  lemma {:induction false} RunTokensAppend(run: Runner, m: Machine, words: Command, sep: Token, rest: seq<Token>)
    requires words != [] && (sep == Newline || sep == Semicolon)
    ensures RunTokens(run, m, [], Tokens(words) + [sep] + rest) == RunTokens(run, run(m, words), [], rest)
  {
    RunWords(run, m, [], words, [sep] + rest);
    assert Tokens(words) + [sep] + rest == Tokens(words) + ([sep] + rest);
    assert [] + words == words;
    assert ([sep] + rest)[1..] == rest;
  }

  lemma {:induction false} RunWords(run: Runner, m: Machine, before: Command, words: Command, rest: seq<Token>)
    ensures RunTokens(run, m, before, Tokens(words) + rest) == RunTokens(run, m, before + words, rest)
    decreases |words|
  {
    if words == [] {
      assert Tokens(words) + rest == rest && before + words == before;
    } else {
      RunWords(run, m, before + [words[0]], words[1..], rest);
      assert (Tokens(words) + rest)[1..] == Tokens(words[1..]) + rest;
      assert before + [words[0]] + words[1..] == before + words;
    }
  }

  function RunAll(run: Runner, m: Machine, commands: seq<Command>): Machine
    decreases |commands|
  {
    if commands == [] then m else RunAll(run, run(m, commands[0]), commands[1..])
  }

  lemma {:induction false} RunAllAppend(run: Runner, m: Machine, a: seq<Command>, b: seq<Command>)
    ensures RunAll(run, m, a + b) == RunAll(run, RunAll(run, m, a), b)
    decreases |a|
  {
    if a == [] {
      assert a + b == b;
    } else {
      assert (a + b)[0] == a[0] && (a + b)[1..] == a[1..] + b;
      RunAllAppend(run, run(m, a[0]), a[1..], b);
    }
  }

  lemma {:induction false} SeparatedRuns(run: Runner, m: Machine, commands: seq<Command>, sep: Token, rest: seq<Token>)
    requires forall i | 0 <= i < |commands| :: commands[i] != []
    requires sep == Newline || sep == Semicolon
    ensures RunTokens(run, m, [], SeparatedTokens(commands, sep) + rest)
            == RunTokens(run, RunAll(run, m, commands), [], rest)
    decreases |commands|
  {
    if commands == [] {
      assert SeparatedTokens(commands, sep) + rest == rest;
    } else {
      var more := SeparatedTokens(commands[1..], sep) + rest;
      assert SeparatedTokens(commands, sep) + rest == Tokens(commands[0]) + [sep] + more;
      RunTokensAppend(run, m, commands[0], sep, more);
      SeparatedRuns(run, run(m, commands[0]), commands[1..], sep, rest);
    }
  }

  // ---- Assignments ----

  /** `name=value` with its value quoted. */
  function AssignmentText(item: Item): string {
    item.0 + "=" + Quote(item.1)
  }

  function AssignmentPieces(item: Item): seq<Piece> {
    Lits(item.0 + "=", false) + QuotedPieces(item.1)
  }

  predicate Assignable(item: Item) {
    Identifier(item.0) && NoNul(item.1)
  }

  predicate AllAssignable(items: seq<Item>) {
    forall item | item in items :: Assignable(item)
  }

  lemma {:induction false} NameLengthIs(name: string, rest: seq<Piece>)
    requires forall i | 0 <= i < |name| :: NameChar(name[i])
    requires rest != [] && rest[0] == Lit('=', false)
    ensures NameLength(Lits(name, false) + rest) == |name|
    decreases |name|
  {
    if name == "" {
      assert Lits(name, false) + rest == rest;
    } else {
      NameLengthIs(name[1..], rest);
      assert (Lits(name, false) + rest)[1..] == Lits(name[1..], false) + rest;
    }
  }

  lemma AssignmentReadBack(item: Item)
    requires Assignable(item)
    ensures AssignmentOf(AssignmentPieces(item)) == Some(item)
  {
    var (name, value) := item;
    var pieces := AssignmentPieces(item);
    var tail := [Lit('=', false)] + QuotedPieces(value);
    assert pieces == Lits(name, false) + tail;
    NameLengthIs(name, tail);
    assert pieces[..|name|] == Lits(name, false) && pieces[|name| + 1..] == QuotedPieces(value);
    TextOfLits(name, false);
    TextOfLits(value, value == "" || !Safe(value));
  }

  /** Wherever a word may start, a printed assignment is read as that one assignment word. */
  lemma AssignmentReads(lx: Lexer, item: Item)
    requires lx.mode == Blank && lx.word == [] && Assignable(item)
    ensures ReadText(lx, AssignmentText(item)) == Lexer(lx.tokens, InWord, AssignmentPieces(item))
  {
    var name := item.0 + "=";
    SafeReads(lx, name);
    ReadAppend(lx, name, Quote(item.1));
    assert [] + Lits(name, false) == Lits(name, false);
    QuoteReads(Lexer(lx.tokens, InWord, Lits(name, false)), item.1);
  }

  lemma AssignmentRuns(m: Machine, item: Item, args: seq<string>)
    requires Assignable(item)
    ensures RunCommand(m, [AssignmentPieces(item)], args) == Assign(m, item.0, item.1)
  {
    AssignmentReadBack(item);
  }
}
