/**
 A reader for shell text, one character at a time (POSIX.1-2017 XCU sections
 2.2.1 to 2.2.3 and 2.3), and the quoting function whose output it reads. What
 this fragment does not cover (expansions other than "$@", redirection,
 pathname patterns) puts the reader in Bad, so nothing is claimed about it.
 */
module Shell {
  import opened Prelude

  /** A character of a word, and whether it was quoted; or the "$@" of the positional parameters. */
  datatype Piece = Lit(c: char, quoted: bool) | AllArgs

  datatype Token = Word(pieces: seq<Piece>) | Newline | Semicolon | Ampersand | AndIf

  datatype Mode =
    | Blank
    | InWord
    | Single
    | Double
    | Escape(atStart: bool)
    | DoubleEscape
    | DoubleDollar
    | Comment
    | AfterOperator(op: char)
    | Bad

  datatype Lexer = Lexer(tokens: seq<Token>, mode: Mode, word: seq<Piece>)

  const FRESH := Lexer([], Blank, [])

  predicate IsBlank(c: char) {
    c == ' ' || c == '\t'
  }

  predicate Delimits(c: char) {
    IsBlank(c) || c == '\n' || c == ';' || c == '&'
  }

  /** Operators and expansions outside this fragment, and the character no text file has. */
  predicate Unsupported(c: char) {
    IsNul(c) || c in {'$', '`', '|', '<', '>', '(', ')', '*', '?', '[', '~', '{', '}', '!'}
  }

  function Add(lx: Lexer, piece: Piece): Lexer {
    lx.(mode := if lx.mode == DoubleEscape || lx.mode == DoubleDollar || lx.mode == Double then Double
                else if lx.mode == Single then Single
                else InWord,
        word := lx.word + [piece])
  }

  function EndWord(lx: Lexer): Lexer {
    Lexer(lx.tokens + [Word(lx.word)], Blank, [])
  }

  /** A character inside a word, outside quotes. */
  function ReadInWord(lx: Lexer, c: char): Lexer {
    if Unsupported(c) then lx.(mode := Bad)
    else if c == '\'' then lx.(mode := Single)
    else if c == '"' then lx.(mode := Double)
    else if c == '\\' then lx.(mode := Escape(false))
    else Add(lx, Lit(c, false))
  }

  /** A character between tokens. */
  function ReadBlank(lx: Lexer, c: char): Lexer {
    if IsBlank(c) then lx.(mode := Blank)
    else if c == '\n' then lx.(mode := Blank, tokens := lx.tokens + [Newline])
    else if c == ';' || c == '&' then lx.(mode := AfterOperator(c))
    else if c == '#' then lx.(mode := Comment)
    else if c == '\\' then lx.(mode := Escape(true))
    else ReadInWord(lx.(mode := InWord), c)
  }

  function Operator(op: char): Token {
    if op == ';' then Semicolon else Ampersand
  }

  function Read(lx: Lexer, c: char): Lexer {
    if IsNul(c) then lx.(mode := Bad)
    else
      match lx.mode
      case Blank => ReadBlank(lx, c)
      case InWord => if Delimits(c) then ReadBlank(EndWord(lx), c) else ReadInWord(lx, c)
      case Single => if c == '\'' then lx.(mode := InWord) else Add(lx, Lit(c, true))
      case Double =>
        if c == '"' then lx.(mode := InWord)
        else if c == '\\' then lx.(mode := DoubleEscape)
        else if c == '$' then lx.(mode := DoubleDollar)
        else if c == '`' then lx.(mode := Bad)
        else Add(lx, Lit(c, true))
      case Escape(atStart) =>
        if c == '\n' then lx.(mode := if atStart then Blank else InWord) else Add(lx, Lit(c, true))
      case DoubleEscape =>
        if c == '\n' then lx.(mode := Double)
        else if c in {'$', '`', '"', '\\'} then Add(lx, Lit(c, true))
        else Add(Add(lx, Lit('\\', true)), Lit(c, true))
      case DoubleDollar => if c == '@' then Add(lx, AllArgs) else lx.(mode := Bad)
      case Comment => if c == '\n' then lx.(mode := Blank, tokens := lx.tokens + [Newline]) else lx
      case AfterOperator(op) =>
        if c != op then ReadBlank(lx.(tokens := lx.tokens + [Operator(op)]), c)
        else if op == '&' then lx.(tokens := lx.tokens + [AndIf], mode := Blank)
        else lx.(mode := Bad)
      case Bad => lx
  }

  function ReadText(lx: Lexer, text: string): Lexer {
    Fold(Read, lx, text)
  }

  /** The tokens of a whole text; None when a quote is left open or the text leaves the fragment. */
  function Lex(text: string): Option<seq<Token>> {
    End(ReadText(FRESH, text))
  }

  function End(lx: Lexer): Option<seq<Token>> {
    match lx.mode
    case Blank => Some(lx.tokens)
    case Comment => Some(lx.tokens)
    case InWord => Some(EndWord(lx).tokens)
    case AfterOperator(op) => Some(lx.tokens + [Operator(op)])
    case _ => None
  }

  lemma {:induction false} ReadAppend(lx: Lexer, a: string, b: string)
    ensures ReadText(lx, a + b) == ReadText(ReadText(lx, a), b)
  {
    FoldAppend(Read, lx, a, b);
  }

  lemma {:induction false} ReadOne(lx: Lexer, c: char)
    ensures ReadText(lx, [c]) == Read(lx, c)
  {
    FoldOne(Read, lx, c);
  }

  // ---- shlex.quote ----

  predicate SafeChar(c: char) {
    'a' <= c <= 'z' || 'A' <= c <= 'Z' || '0' <= c <= '9' || c in {'_', '@', '%', '+', '=', ':', ',', '.', '/', '-'}
  }

  predicate Safe(s: string) {
    forall i | 0 <= i < |s| :: SafeChar(s[i])
  }

  /** Each quote inside closes the single quotes, stands in double quotes, and reopens them. */
  function QuoteChar(c: char): string {
    if c == '\'' then "'\"'\"'" else [c]
  }

  function QuoteBody(s: string): string {
    if s == "" then "" else QuoteChar(s[0]) + QuoteBody(s[1..])
  }

  function Quote(s: string): string {
    if s != "" && Safe(s) then s else "'" + QuoteBody(s) + "'"
  }

  function Lits(s: string, quoted: bool): seq<Piece> {
    seq(|s|, i requires 0 <= i < |s| => Lit(s[i], quoted))
  }

  function QuotedPieces(s: string): seq<Piece> {
    Lits(s, s == "" || !Safe(s))
  }

  predicate IsNul(c: char) {
    c == '\0'
  }

  predicate NoNul(s: string) {
    forall i | 0 <= i < |s| :: !IsNul(s[i])
  }

  predicate AtWord(lx: Lexer) {
    lx.mode == InWord || (lx.mode == Blank && lx.word == [])
  }

  lemma {:induction false} SafeReads(lx: Lexer, s: string)
    requires AtWord(lx) && Safe(s) && s != ""
    ensures ReadText(lx, s) == Lexer(lx.tokens, InWord, lx.word + Lits(s, false))
    decreases |s|
  {
    assert SafeChar(s[0]);
    var next := Read(lx, s[0]);
    assert next == Lexer(lx.tokens, InWord, lx.word + [Lit(s[0], false)]);
    assert Lits(s, false) == [Lit(s[0], false)] + Lits(s[1..], false);
    if |s| == 1 {
      assert s == [s[0]] && Lits(s[1..], false) == [];
      ReadOne(lx, s[0]);
    } else {
      SafeReads(next, s[1..]);
    }
  }

  lemma {:induction false} QuoteCharReads(lx: Lexer, c: char)
    requires lx.mode == Single && !IsNul(c)
    ensures ReadText(lx, QuoteChar(c)) == Add(lx, Lit(c, true))
  {
    if c == '\'' {
      var lx1 := lx.(mode := InWord);
      var lx2 := lx.(mode := Double);
      var lx3 := Lexer(lx.tokens, Double, lx.word + [Lit(c, true)]);
      var lx4 := lx3.(mode := InWord);
      var lx5 := lx3.(mode := Single);
      var s := QuoteChar(c);
      assert s[1..][1..] == s[2..] && s[2..][1..] == s[3..] && s[3..][1..] == s[4..] && s[4..][1..] == [];
      assert ReadText(lx, s) == ReadText(lx1, s[1..]) == ReadText(lx2, s[2..]) == ReadText(lx3, s[3..]);
      assert ReadText(lx3, s[3..]) == ReadText(lx4, s[4..]) == ReadText(lx5, []);
    } else {
      ReadOne(lx, c);
    }
  }

  lemma {:induction false} QuoteBodyReads(lx: Lexer, s: string)
    requires lx.mode == Single && NoNul(s)
    ensures ReadText(lx, QuoteBody(s)) == Lexer(lx.tokens, Single, lx.word + Lits(s, true))
    decreases |s|
  {
    if s != "" {
      ReadAppend(lx, QuoteChar(s[0]), QuoteBody(s[1..]));
      QuoteCharReads(lx, s[0]);
      QuoteBodyReads(Add(lx, Lit(s[0], true)), s[1..]);
      assert Lits(s, true) == [Lit(s[0], true)] + Lits(s[1..], true);
    } else {
      assert Lits(s, true) == [];
    }
  }

  /** Reading undoes quoting: wherever a word may go on, a quoted value adds exactly its own characters to it. */
  lemma {:induction false} QuoteReads(lx: Lexer, s: string)
    requires AtWord(lx) && NoNul(s)
    ensures ReadText(lx, Quote(s)) == Lexer(lx.tokens, InWord, lx.word + QuotedPieces(s))
  {
    if s != "" && Safe(s) {
      SafeReads(lx, s);
    } else {
      var open := lx.(mode := Single);
      ReadOne(lx, '\'');
      QuoteBodyReads(open, s);
      var closed := Lexer(lx.tokens, Single, lx.word + Lits(s, true));
      ReadOne(closed, '\'');
      ReadAppend(lx, "'", QuoteBody(s));
      ReadAppend(lx, "'" + QuoteBody(s), "'");
    }
  }

  // ---- Words in a row ----

  /** The text of a word made of characters only, after quote removal. */
  function TextOf(pieces: seq<Piece>): Option<string> {
    if pieces == [] then Some("")
    else if pieces[0].AllArgs? then None
    else
      var rest := TextOf(pieces[1..]);
      if rest.None? then None else Some([pieces[0].c] + rest.value)
  }

  lemma {:induction false} TextOfLits(s: string, quoted: bool)
    ensures TextOf(Lits(s, quoted)) == Some(s)
    decreases |s|
  {
    if s != "" {
      TextOfLits(s[1..], quoted);
      assert Lits(s, quoted)[1..] == Lits(s[1..], quoted);
      assert s == [s[0]] + s[1..];
    }
  }

  /** The words a token list holds, when it is nothing but words. */
  function WordTokens(words: seq<string>): seq<Token> {
    seq(|words|, i requires 0 <= i < |words| => Word(QuotedPieces(words[i])))
  }

  function JoinQuoted(words: seq<string>): string {
    if words == [] then ""
    else if |words| == 1 then Quote(words[0])
    else Quote(words[0]) + " " + JoinQuoted(words[1..])
  }

  predicate NoNuls(words: seq<string>) {
    forall word | word in words :: NoNul(word)
  }

  /** The reader after a space-separated list: it is inside the last word, if there is one. */
  function AfterWords(lx: Lexer, words: seq<string>): Lexer {
    if words == [] then lx
    else Lexer(lx.tokens + WordTokens(words[..|words| - 1]), InWord, QuotedPieces(words[|words| - 1]))
  }

  lemma {:induction false} OneWordReads(lx: Lexer, word: string)
    requires lx.mode == Blank && lx.word == [] && NoNul(word)
    ensures ReadText(lx, Quote(word)) == Lexer(lx.tokens, InWord, QuotedPieces(word))
    ensures ReadText(lx, Quote(word) + " ") == NextWord(lx, word)
  {
    QuoteReads(lx, word);
    assert [] + QuotedPieces(word) == QuotedPieces(word);
    var after := Lexer(lx.tokens, InWord, QuotedPieces(word));
    ReadAppend(lx, Quote(word), " ");
    ReadOne(after, ' ');
  }

  /**
   Every list of words is read back one word each: the empty ones and the ones
   with quotes, spaces or newlines included.
   */
  lemma {:induction false} JoinQuotedReads(lx: Lexer, words: seq<string>)
    requires lx.mode == Blank && lx.word == [] && NoNuls(words)
    ensures ReadText(lx, JoinQuoted(words)) == AfterWords(lx, words)
    decreases |words|
  {
    if words != [] {
      var word, rest := words[0], words[1..];
      assert word in words;
      OneWordReads(lx, word);
      if |words| == 1 {
        assert words[..0] == [] && lx.tokens + WordTokens([]) == lx.tokens;
      } else {
        var next := NextWord(lx, word);
        ReadAppend(lx, Quote(word) + " ", JoinQuoted(rest));
        JoinQuotedReads(next, rest);
        AfterMoreWords(lx, words);
      }
    }
  }

  /** Between words, one word further on. */
  function NextWord(lx: Lexer, word: string): Lexer {
    Lexer(lx.tokens + [Word(QuotedPieces(word))], Blank, [])
  }

  lemma {:induction false} AfterMoreWords(lx: Lexer, words: seq<string>)
    requires |words| > 1
    ensures AfterWords(NextWord(lx, words[0]), words[1..]) == AfterWords(lx, words)
  {
    var first, rest := [Word(QuotedPieces(words[0]))], WordTokens(words[1..][..|words| - 2]);
    assert WordTokens(words[..|words| - 1]) == first + rest;
    assert lx.tokens + (first + rest) == lx.tokens + first + rest;
  }

  lemma {:induction false} AllWordTokens(words: seq<string>)
    requires words != []
    ensures WordTokens(words[..|words| - 1]) + [Word(QuotedPieces(words[|words| - 1]))] == WordTokens(words)
  {
  }

  /** The strings a list of tokens spells, when all of them are words. */
  function Spelled(tokens: seq<Token>): Option<seq<string>> {
    if tokens == [] then Some([])
    else if !tokens[0].Word? then None
    else
      var word, rest := TextOf(tokens[0].pieces), Spelled(tokens[1..]);
      if word.None? || rest.None? then None else Some([word.value] + rest.value)
  }

  lemma {:induction false} SpelledWords(words: seq<string>)
    ensures Spelled(WordTokens(words)) == Some(words)
    decreases |words|
  {
    if words != [] {
      TextOfLits(words[0], words[0] == "" || !Safe(words[0]));
      SpelledWords(words[1..]);
      assert WordTokens(words)[1..] == WordTokens(words[1..]);
      assert words == [words[0]] + words[1..];
    }
  }

  /** The round trip of a command line: what was quoted and joined is what the shell reads. */
  lemma {:induction false} JoinQuotedRoundTrip(words: seq<string>)
    requires NoNuls(words)
    ensures Lex(JoinQuoted(words)).Some? && Spelled(Lex(JoinQuoted(words)).value) == Some(words)
  {
    JoinQuotedReads(FRESH, words);
    SpelledWords(words);
    if words != [] {
      AllWordTokens(words);
      assert [] + WordTokens(words[..|words| - 1]) == WordTokens(words[..|words| - 1]);
    }
  }
}
