/** Lines of a script as printed text, and the commands a shell reads in them. */
module ScriptText {
  import opened Prelude
  import opened Lines
  import opened Shell
  import opened ShellCommands

  /** A command of the script: its words; for apt, the update that must succeed first. */
  datatype Cmd = Simple(words: seq<string>) | Chain(first: seq<string>, second: seq<string>)

  // ---- The printers ----

  function QuotedLine(words: seq<string>, pkg: string): string {
    Fixed(words) + Quote(pkg)
  }

  function QuotedEach(words: seq<string>, pkgs: seq<string>): seq<string> {
    seq(|pkgs|, i requires 0 <= i < |pkgs| => QuotedLine(words, pkgs[i]))
  }

  /** The fixed words a line starts with. */
  function Fixed(words: seq<string>): string {
    Join(words, " ") + " "
  }

  // ---- Reading a line ----

  /** The tokens of a command. */
  function CmdTokens(cmd: Cmd): seq<Token> {
    match cmd
    case Simple(words) => WordTokens(words)
    case Chain(first, second) => WordTokens(first) + [AndIf] + WordTokens(second)
  }

  /** The command a line's tokens make. */
  function CmdOf(tokens: seq<Token>): Option<Cmd> {
    var k := IndexOf(tokens, AndIf);
    if k == |tokens| then
      var words := Spelled(tokens);
      if words.None? then None else Some(Simple(words.value))
    else
      var first, second := Spelled(tokens[..k]), Spelled(tokens[k + 1..]);
      if first.None? || second.None? then None else Some(Chain(first.value, second.value))
  }

  lemma {:induction false} CmdReadBack(cmd: Cmd)
    ensures CmdOf(CmdTokens(cmd)) == Some(cmd) && Newline !in CmdTokens(cmd)
  {
    var tokens := CmdTokens(cmd);
    match cmd
    case Simple(words) =>
      IndexOfUnique(tokens, AndIf, |tokens|);
      SpelledWords(words);
    case Chain(first, second) =>
      var k := |first|;
      assert tokens[..k] == WordTokens(first) && tokens[k + 1..] == WordTokens(second);
      IndexOfUnique(tokens, AndIf, k);
      SpelledWords(first);
      SpelledWords(second);
  }

  /** As a line of a script the text is read as these tokens, and nothing of it is left over. */
  ghost predicate LineReads(text: string, tokens: seq<Token>) {
    forall before :: ReadText(Lexer(before, Blank, []), text + "\n") == Lexer(before + tokens + [Newline], Blank, [])
  }

  /** The reader before and after the newline of a list of words. */
  lemma WordsThenNewline(before: seq<Token>, words: seq<string>)
    requires NoNuls(words)
    ensures ReadText(AfterWords(Lexer(before, Blank, []), words), "\n")
            == Lexer(before + WordTokens(words) + [Newline], Blank, [])
  {
    var lx := AfterWords(Lexer(before, Blank, []), words);
    ReadOne(lx, '\n');
    if words != [] {
      AllWordTokens(words);
      assert before + WordTokens(words) == lx.tokens + [Word(lx.word)];
    } else {
      assert before + WordTokens(words) == before;
    }
  }

  /** Fixed words, a blank, and quoted ones: the line of these words, also when there are none to quote. */
  lemma {:induction false} WordsLine(fixed: seq<string>, args: seq<string>)
    requires fixed != [] && NoNuls(fixed) && NoNuls(args)
    ensures LineReads(JoinQuoted(fixed) + " " + JoinQuoted(args), WordTokens(fixed + args))
  {
    forall before
      ensures ReadText(Lexer(before, Blank, []), JoinQuoted(fixed) + " " + JoinQuoted(args) + "\n")
           == Lexer(before + WordTokens(fixed + args) + [Newline], Blank, [])
    {
      BlankAfterWords(before, fixed);
      JoinQuotedReads(Lexer(before + WordTokens(fixed), Blank, []), args);
      WordsThenNewline(before + WordTokens(fixed), args);
      ReadThree(Lexer(before, Blank, []), JoinQuoted(fixed) + " ", JoinQuoted(args), "\n");
      TokensOfBoth(before, fixed, args);
    }
  }

  lemma {:induction false} ReadThree(lx: Lexer, a: string, b: string, c: string)
    ensures ReadText(lx, a + b + c) == ReadText(ReadText(ReadText(lx, a), b), c)
  {
    ReadAppend(lx, a, b);
    ReadAppend(lx, a + b, c);
  }

  lemma {:induction false} TokensOfBoth(before: seq<Token>, fixed: seq<string>, args: seq<string>)
    ensures before + WordTokens(fixed) + WordTokens(args) == before + WordTokens(fixed + args)
  {
  }

  lemma {:induction false} BlankAfterWords(before: seq<Token>, words: seq<string>)
    requires words != [] && NoNuls(words)
    ensures ReadText(Lexer(before, Blank, []), JoinQuoted(words) + " ") == Lexer(before + WordTokens(words), Blank, [])
  {
    var lx := Lexer(before, Blank, []);
    JoinQuotedReads(lx, words);
    ReadAppend(lx, JoinQuoted(words), " ");
    ReadOne(AfterWords(lx, words), ' ');
    AllWordTokens(words);
    assert before + WordTokens(words) == AfterWords(lx, words).tokens + [Word(AfterWords(lx, words).word)];
  }

  lemma AndIfReads(tokens: seq<Token>)
    ensures ReadText(Lexer(tokens, Blank, []), "&& ") == Lexer(tokens + [AndIf], Blank, [])
  {
    var anded := Lexer(tokens + [AndIf], Blank, []);
    ReadOne(anded, ' ');
    assert "&& "[1..] == "& " && "& "[1..] == " ";
    assert ReadText(Lexer(tokens, AfterOperator('&'), []), "& ") == ReadText(anded, " ");
  }

  lemma AndIfAfterWords(before: seq<Token>, words: seq<string>)
    requires words != [] && NoNuls(words)
    ensures ReadText(Lexer(before, Blank, []), JoinQuoted(words) + " && ")
            == Lexer(before + WordTokens(words) + [AndIf], Blank, [])
  {
    BlankAfterWords(before, words);
    AndIfReads(before + WordTokens(words));
    ReadAppend(Lexer(before, Blank, []), JoinQuoted(words) + " ", "&& ");
    assert JoinQuoted(words) + " " + "&& " == JoinQuoted(words) + " && ";
  }

  /** Two commands joined by `&&`, the second with quoted words at its end. */
  lemma {:induction false} ChainLine(first: seq<string>, fixed: seq<string>, args: seq<string>)
    requires first != [] && fixed != [] && NoNuls(first) && NoNuls(fixed) && NoNuls(args)
    ensures LineReads(JoinQuoted(first) + " && " + (JoinQuoted(fixed) + " " + JoinQuoted(args)),
            CmdTokens(Chain(first, fixed + args)))
  {
    var rest := JoinQuoted(fixed) + " " + JoinQuoted(args);
    WordsLine(fixed, args);
    forall before
      ensures ReadText(Lexer(before, Blank, []), JoinQuoted(first) + " && " + rest + "\n")
           == Lexer(before + CmdTokens(Chain(first, fixed + args)) + [Newline], Blank, [])
    {
      AndIfAfterWords(before, first);
      ReadAppend(Lexer(before, Blank, []), JoinQuoted(first) + " && ", rest + "\n");
      Associative(JoinQuoted(first) + " && ", rest, "\n");
      TokensOfChain(before, first, fixed + args);
    }
  }

  lemma {:induction false} TokensOfChain(before: seq<Token>, first: seq<string>, second: seq<string>)
    ensures before + WordTokens(first) + [AndIf] + WordTokens(second) == before + CmdTokens(Chain(first, second))
  {
  }

  // ---- Reading many lines ----

  /** The commands of complete lines; empty lines have none. */
  function CmdsOf(lines: seq<seq<Token>>): Option<seq<Cmd>> {
    if lines == [] then Some([])
    else
      var rest := CmdsOf(lines[1..]);
      if lines[0] == [] then rest
      else
        var cmd := CmdOf(lines[0]);
        if cmd.None? || rest.None? then None else Some([cmd.value] + rest.value)
  }

  lemma {:induction false} CmdsOfAppend(a: seq<seq<Token>>, b: seq<seq<Token>>)
    requires CmdsOf(a).Some? && CmdsOf(b).Some?
    ensures CmdsOf(a + b) == Some(CmdsOf(a).value + CmdsOf(b).value)
  {
    if a == [] {
      assert a + b == b && [] + CmdsOf(b).value == CmdsOf(b).value;
    } else {
      assert (a + b)[0] == a[0] && (a + b)[1..] == a[1..] + b;
      CmdsOfAppend(a[1..], b);
      if a[0] != [] {
        Associative([CmdOf(a[0]).value], CmdsOf(a[1..]).value, CmdsOf(b).value);
      }
    }
  }

  /** What a shell is given to run by these tokens. */
  function Parsed(tokens: seq<Token>): Option<seq<Cmd>> {
    if Rest(tokens, Newline) != [] then None else CmdsOf(Complete(tokens, Newline))
  }

  lemma ParsedAppend(a: seq<Token>, b: seq<Token>)
    requires Parsed(a).Some? && Parsed(b).Some?
    ensures Parsed(a + b) == Some(Parsed(a).value + Parsed(b).value)
  {
    SplitInPieces(a, b, Newline);
    assert [] + b == b;
    CmdsOfAppend(Complete(a, Newline), Complete(b, Newline));
  }

  ghost predicate AllRead(lines: seq<string>, tokens: seq<Token>) {
    forall before :: ReadText(Lexer(before, Blank, []), Separated(lines, "\n")) == Lexer(before + tokens, Blank, [])
  }

  /** The lines, each ended by a newline, are read as exactly these commands. */
  ghost predicate Prints(lines: seq<string>, cmds: seq<Cmd>) {
    exists tokens :: AllRead(lines, tokens) && Parsed(tokens) == Some(cmds)
  }

  lemma PrintsAppend(a: seq<string>, cmds: seq<Cmd>, b: seq<string>, more: seq<Cmd>)
    requires Prints(a, cmds) && Prints(b, more)
    ensures Prints(a + b, cmds + more)
  {
    var t :| AllRead(a, t) && Parsed(t) == Some(cmds);
    var u :| AllRead(b, u) && Parsed(u) == Some(more);
    ParsedAppend(t, u);
    AllReadAppend(a, t, b, u);
  }

  lemma AllReadAppend(a: seq<string>, t: seq<Token>, b: seq<string>, u: seq<Token>)
    requires AllRead(a, t) && AllRead(b, u)
    ensures AllRead(a + b, t + u)
  {
    SeparatedAppend(a, b, "\n");
    forall before
      ensures ReadText(Lexer(before, Blank, []), Separated(a + b, "\n")) == Lexer(before + (t + u), Blank, [])
    {
      ReadAppend(Lexer(before, Blank, []), Separated(a, "\n"), Separated(b, "\n"));
      assert before + t + u == before + (t + u);
    }
  }

  lemma {:induction false} PrintsLine(text: string, cmd: Cmd)
    requires LineReads(text, CmdTokens(cmd)) && CmdTokens(cmd) != []
    ensures Prints([text], [cmd])
  {
    var line := CmdTokens(cmd);
    CmdReadBack(cmd);
    SplitLine(line, Newline);
    assert [line][1..] == [] && [cmd] + [] == [cmd];
    assert CmdsOf([line]) == Some([cmd]);
    LineReadsAll(text, line);
  }

  lemma LineReadsAll(text: string, tokens: seq<Token>)
    requires LineReads(text, tokens)
    ensures AllRead([text], tokens + [Newline])
  {
    assert Separated([text], "\n") == text + "\n" + Separated([text][1..], "\n") == text + "\n";
    forall before ensures ReadText(Lexer(before, Blank, []), text + "\n")
      == Lexer(before + (tokens + [Newline]), Blank, []) {
      assert before + tokens + [Newline] == before + (tokens + [Newline]);
    }
  }

  lemma PrintsNothing(text: string)
    requires LineReads(text, [])
    ensures Prints([text], [])
  {
    LineReadsAll(text, []);
    SplitLine<Token>([], Newline);
    assert [] + [Newline] == [Newline];
    var empty: seq<Token> := [];
    assert [empty][1..] == [] && CmdsOf([empty]) == CmdsOf([]);
    assert Parsed([Newline]) == Some([]);
  }

  lemma EmptyLine()
    ensures Prints([""], [])
  {
    forall before ensures ReadText(Lexer(before, Blank, []), "" + "\n") == Lexer(before + [] + [Newline], Blank, []) {
      ReadOne(Lexer(before, Blank, []), '\n');
      assert before + [] == before && "" + "\n" == "\n";
    }
    PrintsNothing("");
  }

  lemma {:induction false} CommentReads(lx: Lexer, text: string)
    requires lx.mode == Comment && NoNul(text) && '\n' !in text
    ensures ReadText(lx, text) == lx
    decreases |text|
  {
    if text != "" {
      assert text == [text[0]] + text[1..];
      CommentReads(lx, text[1..]);
    }
  }

  lemma CommentLine(text: string)
    requires NoNul(text) && '\n' !in text
    ensures Prints(["#" + text], [])
  {
    forall before ensures ReadText(Lexer(before, Blank, []), "#" + text + "\n")
      == Lexer(before + [] + [Newline], Blank, []) {
      var comment := Lexer(before, Comment, []);
      ReadOne(Lexer(before, Blank, []), '#');
      ReadAppend(Lexer(before, Blank, []), "#", text);
      CommentReads(comment, text);
      ReadAppend(Lexer(before, Blank, []), "#" + text, "\n");
      ReadOne(comment, '\n');
      assert before + [] == before;
    }
    PrintsNothing("#" + text);
  }

  /** Words that quoting leaves as they are. */
  predicate AllSafe(words: seq<string>) {
    words != [] && forall i | 0 <= i < |words| :: words[i] != "" && Safe(words[i])
  }

  lemma {:induction false} FixedIsQuoted(words: seq<string>)
    requires AllSafe(words)
    ensures Join(words, " ") == JoinQuoted(words) && NoNuls(words)
    decreases |words|
  {
    SafeHasNoNul(words[0]);
    if |words| > 1 {
      assert words == [words[0]] + words[1..];
      FixedIsQuoted(words[1..]);
    }
  }

  lemma {:induction false} SafeHasNoNul(word: string)
    requires Safe(word)
    ensures NoNul(word)
  {
    forall i | 0 <= i < |word| ensures !IsNul(word[i]) {
      assert SafeChar(word[i]);
    }
  }

  lemma FixedLine(fixed: seq<string>, args: seq<string>)
    requires AllSafe(fixed) && NoNuls(args)
    ensures Prints([Fixed(fixed) + JoinQuoted(args)], [Simple(fixed + args)])
  {
    FixedIsQuoted(fixed);
    WordsLine(fixed, args);
    PrintsLine(Fixed(fixed) + JoinQuoted(args), Simple(fixed + args));
  }

  lemma ChainedLine(first: seq<string>, fixed: seq<string>, args: seq<string>)
    requires AllSafe(first) && AllSafe(fixed) && NoNuls(args)
    ensures Prints([Join(first, " ") + " && " + Fixed(fixed) + JoinQuoted(args)], [Chain(first, fixed + args)])
  {
    FixedIsQuoted(first);
    FixedIsQuoted(fixed);
    ChainLine(first, fixed, args);
    Associative(JoinQuoted(first) + " && ", JoinQuoted(fixed) + " ", JoinQuoted(args));
    PrintsLine(JoinQuoted(first) + " && " + (JoinQuoted(fixed) + " " + JoinQuoted(args)), Chain(first, fixed + args));
  }

  lemma NoLines()
    ensures Prints([], [])
  {
    forall before: seq<Token> ensures ReadText(Lexer(before, Blank, []), "") == Lexer(before + [], Blank, []) {
      assert before + [] == before;
    }
    assert AllRead([], []) && Parsed([]) == Some([]);
  }

  lemma OneLine(fixed: seq<string>, pkg: string)
    requires AllSafe(fixed) && NoNul(pkg)
    ensures Prints([QuotedLine(fixed, pkg)], [Simple(fixed + [pkg])])
  {
    FixedLine(fixed, [pkg]);
  }
}
