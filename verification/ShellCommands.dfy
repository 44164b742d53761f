/** Lists of simple commands as text: how the reader takes them when they are joined by newlines or semicolons. */
module ShellCommands {
  import opened Prelude
  import opened Shell

  function Separated(parts: seq<string>, sep: string): string {
    if parts == [] then "" else parts[0] + sep + Separated(parts[1..], sep)
  }

  lemma {:induction false} JoinIsSeparated(parts: seq<string>, last: string, sep: string)
    ensures Join(parts + [last], sep) == Separated(parts, sep) + last
    decreases |parts|
  {
    if parts != [] {
      assert (parts + [last])[1..] == parts[1..] + [last];
      JoinIsSeparated(parts[1..], last, sep);
    }
  }

  lemma {:induction false} SeparatedAppend(a: seq<string>, b: seq<string>, sep: string)
    ensures Separated(a + b, sep) == Separated(a, sep) + Separated(b, sep)
    decreases |a|
  {
    if a == [] {
      assert a + b == b;
    } else {
      assert (a + b)[0] == a[0] && (a + b)[1..] == a[1..] + b;
      SeparatedAppend(a[1..], b, sep);
    }
  }

  predicate Separator(sep: string, token: Token) {
    (sep == "\n" && token == Newline) || (sep == "; " && token == Semicolon)
  }

  lemma SeparatorReads(lx: Lexer, sep: string, token: Token)
    requires lx.mode == InWord && Separator(sep, token)
    ensures ReadText(lx, sep) == Lexer(lx.tokens + [Word(lx.word), token], Blank, [])
  {
    var ended := EndWord(lx);
    assert ended.tokens + [token] == lx.tokens + [Word(lx.word), token];
    if token == Newline {
      ReadOne(lx, '\n');
    } else {
      ReadOne(ended.(mode := AfterOperator(';')), ' ');
      assert "; "[1..] == " ";
    }
  }

  /** A simple command: its words. */
  type Command = seq<seq<Piece>>

  function Tokens(words: seq<seq<Piece>>): seq<Token> {
    seq(|words|, i requires 0 <= i < |words| => Word(words[i]))
  }

  function AfterCommand(tokens: seq<Token>, command: Command): Lexer
    requires command != []
  {
    Lexer(tokens + Tokens(command[..|command| - 1]), InWord, command[|command| - 1])
  }

  /** Wherever a command may start, the text is read as this command. */
  ghost predicate ReadsAs(text: string, command: Command) {
    command != [] && forall tokens :: ReadText(Lexer(tokens, Blank, []), text) == AfterCommand(tokens, command)
  }

  function SeparatedTokens(commands: seq<Command>, sep: Token): seq<Token> {
    if commands == [] then [] else Tokens(commands[0]) + [sep] + SeparatedTokens(commands[1..], sep)
  }

  lemma TokensOfAll(tokens: seq<Token>, command: Command, rest: seq<Token>)
    requires command != []
    ensures tokens + Tokens(command[..|command| - 1]) + ([Word(command[|command| - 1])] + rest)
            == tokens + (Tokens(command) + rest)
  {
    assert Tokens(command) == Tokens(command[..|command| - 1]) + [Word(command[|command| - 1])];
  }

  lemma FirstPartReads(tokens: seq<Token>, text: string, command: Command, sep: string, token: Token, rest: string)
    requires ReadsAs(text, command) && Separator(sep, token)
    ensures ReadText(Lexer(tokens, Blank, []), text + sep + rest)
            == ReadText(Lexer(tokens + (Tokens(command) + [token]), Blank, []), rest)
  {
    var lx := Lexer(tokens, Blank, []);
    ReadAppend(lx, text + sep, rest);
    ReadAppend(lx, text, sep);
    SeparatorReads(AfterCommand(tokens, command), sep, token);
    TokensOfAll(tokens, command, [token]);
    var last := Word(command[|command| - 1]);
    assert [last, token] == [last] + [token];
  }

  ghost predicate AllReadAs(parts: seq<string>, commands: seq<Command>) {
    |parts| == |commands| && forall i | 0 <= i < |parts| :: ReadsAs(parts[i], commands[i])
  }

  lemma {:induction false} SeparatedReads(tokens: seq<Token>, parts: seq<string>, commands: seq<Command>, sep: string,
      token: Token)
    requires AllReadAs(parts, commands) && Separator(sep, token)
    ensures ReadText(Lexer(tokens, Blank, []), Separated(parts, sep))
            == Lexer(tokens + SeparatedTokens(commands, token), Blank, [])
    decreases |parts|
  {
    if parts != [] {
      var first := Tokens(commands[0]) + [token];
      FirstPartReads(tokens, parts[0], commands[0], sep, token, Separated(parts[1..], sep));
      SeparatedReads(tokens + first, parts[1..], commands[1..], sep, token);
      assert tokens + (first + SeparatedTokens(commands[1..], token))
             == tokens + first + SeparatedTokens(commands[1..], token);
    } else {
      assert tokens + [] == tokens;
    }
  }

  lemma AllReadAsAppend(p: seq<string>, c: seq<Command>, p': seq<string>, c': seq<Command>)
    requires AllReadAs(p, c) && AllReadAs(p', c')
    ensures AllReadAs(p + p', c + c')
  {
  }

  /** Commands joined by semicolons are read as those commands. */
  lemma JoinedLex(parts: seq<string>, commands: seq<Command>, last: string, lastCommand: Command)
    requires AllReadAs(parts, commands) && ReadsAs(last, lastCommand)
    ensures Lex(Join(parts + [last], "; ")) == Some(SeparatedTokens(commands, Semicolon) + Tokens(lastCommand))
  {
    var tokens := SeparatedTokens(commands, Semicolon);
    JoinIsSeparated(parts, last, "; ");
    ReadAppend(FRESH, Separated(parts, "; "), last);
    SeparatedReads([], parts, commands, "; ", Semicolon);
    assert [] + tokens == tokens;
    TokensOfAll(tokens, lastCommand, []);
    assert Tokens(lastCommand) + [] == Tokens(lastCommand);
    var word := [Word(lastCommand[|lastCommand| - 1])];
    assert word + [] == word;
  }

  function Plain(word: string): seq<Piece> {
    Lits(word, false)
  }

  lemma TwoWordsReadAs(a: string, b: string)
    requires Safe(a) && Safe(b) && a != "" && b != ""
    ensures ReadsAs(a + " " + b, [Plain(a), Plain(b)])
  {
    forall tokens ensures ReadText(Lexer(tokens, Blank, []), a + " " + b)
      == AfterCommand(tokens, [Plain(a), Plain(b)]) {
      WordThenReads(tokens, a, b);
      SafeReads(Lexer(tokens + [Word(Plain(a))], Blank, []), b);
      assert [] + Lits(b, false) == Lits(b, false);
      assert [Plain(a), Plain(b)][..1] == [Plain(a)] && Tokens([Plain(a)]) == [Word(Plain(a))];
    }
  }

  /** A safe word and the rest of its command. */
  lemma WordThenReads(tokens: seq<Token>, word: string, rest: string)
    requires Safe(word) && word != ""
    ensures ReadText(Lexer(tokens, Blank, []), word + " " + rest)
            == ReadText(Lexer(tokens + [Word(Plain(word))], Blank, []), rest)
  {
    var lx, inside := Lexer(tokens, Blank, []), Lexer(tokens, InWord, Plain(word));
    ReadAppend(lx, word + " ", rest);
    ReadAppend(lx, word, " ");
    SafeReads(lx, word);
    assert [] + Lits(word, false) == Lits(word, false);
    ReadOne(inside, ' ');
  }
}
