/** Decimal text: what `str` prints for a log id and what `int` reads from a cursor. */
module Decimal {
  import opened Prelude

  predicate IsDigit(c: char) {
    '0' <= c <= '9'
  }

  function Digit(d: nat): (c: char)
    requires d < 10
    ensures IsDigit(c) && Value(c) == d
  {
    ('0' as int + d) as char
  }

  function Value(c: char): nat
    requires IsDigit(c)
  {
    c as int - '0' as int
  }

  function Dec(n: nat): (s: string)
    ensures s != "" && forall i | 0 <= i < |s| :: IsDigit(s[i])
  {
    if n < 10 then [Digit(n)] else Dec(n / 10) + [Digit(n % 10)]
  }

  predicate AllDigits(s: string) {
    forall i | 0 <= i < |s| :: IsDigit(s[i])
  }

  function DigitsValue(s: string): nat
    requires AllDigits(s)
  {
    if s == "" then 0 else 10 * DigitsValue(s[..|s| - 1]) + Value(s[|s| - 1])
  }

  lemma {:induction false} DigitsValueOfDec(n: nat)
    ensures DigitsValue(Dec(n)) == n
  {
    if n < 10 {
      assert DigitsValue([Digit(n)]) == 10 * DigitsValue("") + n;
    } else {
      DigitsValueOfDec(n / 10);
      assert Dec(n)[..|Dec(n)| - 1] == Dec(n / 10);
    }
  }

  // ---- Python's str.strip and int ----

  /** The characters `str.isspace` accepts. */
  predicate PySpace(c: char) {
    || '\t' <= c <= '\r'
    || '\U{1c}' <= c <= ' '
    || c in {'\U{85}', '\U{a0}', '\U{1680}', '\U{2028}', '\U{2029}', '\U{202f}', '\U{205f}', '\U{3000}'}
    || '\U{2000}' <= c <= '\U{200a}'
  }

  function LStrip(s: string): string {
    if s != "" && PySpace(s[0]) then LStrip(s[1..]) else s
  }

  function RStrip(s: string): string {
    if s != "" && PySpace(s[|s| - 1]) then RStrip(s[..|s| - 1]) else s
  }

  function Strip(s: string): string {
    RStrip(LStrip(s))
  }

  /** Digits, with single underscores allowed between them. */
  predicate IntLiteral(s: string) {
    && s != "" && IsDigit(s[0]) && IsDigit(s[|s| - 1])
    && (forall i | 0 <= i < |s| :: IsDigit(s[i]) || (s[i] == '_' && 0 < i && IsDigit(s[i - 1])))
  }

  function WithoutUnderscores(s: string): string {
    if s == "" then "" else (if s[0] == '_' then "" else [s[0]]) + WithoutUnderscores(s[1..])
  }

  lemma {:induction false} WithoutUnderscoresDigits(s: string)
    requires forall i | 0 <= i < |s| :: IsDigit(s[i]) || s[i] == '_'
    ensures AllDigits(WithoutUnderscores(s))
    ensures AllDigits(s) ==> WithoutUnderscores(s) == s
  {
    if s != "" {
      WithoutUnderscoresDigits(s[1..]);
      assert s == [s[0]] + s[1..];
    }
  }

  /** `int(raw)` on ASCII digits; None is the ValueError. */
  function ParseInt(raw: string): Option<int> {
    var s := Strip(raw);
    var signed := s != "" && s[0] in {'+', '-'};
    var body := if signed then s[1..] else s;
    if !IntLiteral(body) then None
    else
      WithoutUnderscoresDigits(body);
      var n: int := DigitsValue(WithoutUnderscores(body));
      Some(if signed && s[0] == '-' then -n else n)
  }

  lemma {:induction false} DecIsStripped(n: nat)
    ensures Strip(Dec(n)) == Dec(n)
  {
    var s := Dec(n);
    assert !PySpace(s[0]) && !PySpace(s[|s| - 1]);
  }

  lemma {:induction false} DecIsLiteral(n: nat)
    ensures IntLiteral(Dec(n)) && Dec(n)[0] !in {'+', '-'} && WithoutUnderscores(Dec(n)) == Dec(n)
  {
    WithoutUnderscoresDigits(Dec(n));
  }

  lemma {:induction false} ParseIntOfDec(n: nat)
    ensures ParseInt(Dec(n)) == Some(n)
  {
    DecIsStripped(n);
    DecIsLiteral(n);
    DigitsValueOfDec(n);
  }

  predicate Stripped(s: string) {
    s != "" ==> !PySpace(s[0]) && !PySpace(s[|s| - 1])
  }

  lemma {:induction false} LStripped(s: string)
    ensures LStrip(s) != "" ==> !PySpace(LStrip(s)[0])
    ensures |LStrip(s)| <= |s|
  {
    if s != "" && PySpace(s[0]) {
      LStripped(s[1..]);
    }
  }

  lemma {:induction false} RStripped(s: string)
    ensures RStrip(s) != "" ==> !PySpace(RStrip(s)[|RStrip(s)| - 1])
    ensures RStrip(s) != "" ==> s != "" && RStrip(s)[0] == s[0]
    ensures |RStrip(s)| <= |s|
  {
    if s != "" && PySpace(s[|s| - 1]) {
      RStripped(s[..|s| - 1]);
    }
  }

  lemma {:induction false} StripStrips(s: string)
    ensures Stripped(Strip(s)) && |Strip(s)| <= |s|
    ensures Stripped(s) ==> Strip(s) == s
  {
    LStripped(s);
    RStripped(LStrip(s));
  }

  predicate AllSpace(s: string) {
    forall i | 0 <= i < |s| :: PySpace(s[i])
  }

  lemma {:induction false} LStripDropsSpace(s: string)
    ensures exists a :: AllSpace(a) && s == a + LStrip(s)
  {
    if s != "" && PySpace(s[0]) {
      LStripDropsSpace(s[1..]);
      var a :| AllSpace(a) && s[1..] == a + LStrip(s[1..]);
      assert s == ([s[0]] + a) + LStrip(s) && AllSpace([s[0]] + a);
    } else {
      assert s == "" + LStrip(s) && AllSpace("");
    }
  }

  lemma {:induction false} RStripDropsSpace(s: string)
    ensures exists b :: AllSpace(b) && s == RStrip(s) + b
  {
    var n := |s| - 1;
    if s != "" && PySpace(s[n]) {
      RStripDropsSpace(s[..n]);
      var b :| AllSpace(b) && s[..n] == RStrip(s[..n]) + b;
      assert s == RStrip(s) + (b + [s[n]]) && AllSpace(b + [s[n]]);
    } else {
      assert s == RStrip(s) + "" && AllSpace("");
    }
  }

  /** Stripping drops spaces at both ends, all of them and nothing else. */
  lemma {:induction false} StripDropsSpace(s: string)
    ensures Stripped(Strip(s)) && exists a, b :: AllSpace(a) && AllSpace(b) && s == a + Strip(s) + b
  {
    StripStrips(s);
    LStripDropsSpace(s);
    RStripDropsSpace(LStrip(s));
    var a :| AllSpace(a) && s == a + LStrip(s);
    var b :| AllSpace(b) && LStrip(s) == Strip(s) + b;
    Associative(a, Strip(s), b);
  }

  lemma {:induction false} SpaceStripsToNothing(s: string)
    ensures Strip(s) == "" <==> AllSpace(s)
  {
    StripDropsSpace(s);
    var a, b :| AllSpace(a) && AllSpace(b) && s == a + Strip(s) + b;
    if Strip(s) == "" {
      assert s == a + b;
    } else {
      assert s[|a|] == Strip(s)[0];
    }
  }

  // ---- Leading digits ----

  /** The number the first k digits of n name. */
  function Leading(n: nat, k: nat): (m: nat)
    ensures m <= n
    ensures k >= |Dec(n)| ==> m == n
    ensures k < |Dec(n)| ==> m < n || n == 0
    decreases n
  {
    if k >= |Dec(n)| then n else if n < 10 then 0 else Leading(n / 10, k)
  }

  lemma {:induction false} LeadingDigits(n: nat, k: nat)
    requires 0 < k <= |Dec(n)|
    ensures Dec(n)[..k] == Dec(Leading(n, k))
    decreases n
  {
    if k == |Dec(n)| {
      assert Dec(n)[..k] == Dec(n);
    } else {
      assert n >= 10;
      assert Dec(n)[..k] == Dec(n / 10)[..k];
      LeadingDigits(n / 10, k);
    }
  }

  lemma {:induction false} ParseLeadingDigits(n: nat, k: nat)
    requires 0 < k <= |Dec(n)|
    ensures ParseInt(Dec(n)[..k]) == Some(Leading(n, k))
  {
    LeadingDigits(n, k);
    ParseIntOfDec(Leading(n, k));
  }

  /** What `str` prints. */
  function Str(n: int): string {
    if n < 0 then "-" + Dec(-n) else Dec(n)
  }

  lemma {:induction false} DigitIsNoSpace(c: char)
    requires IsDigit(c) || c == '+' || c == '-'
    ensures !PySpace(c)
  {
  }

  lemma {:induction false} DecEnds(n: nat)
    ensures !PySpace(Dec(n)[0]) && !PySpace(Dec(n)[|Dec(n)| - 1])
  {
    DigitIsNoSpace(Dec(n)[0]);
    DigitIsNoSpace(Dec(n)[|Dec(n)| - 1]);
  }

  /** Spaces around the digits are allowed, as `int` allows them. */
  lemma {:induction false} ParseIntOfSpaced(n: nat, before: string, after: string)
    requires AllSpace(before) && AllSpace(after)
    ensures ParseInt(before + Dec(n) + after) == Some(n)
  {
    DecEnds(n);
    StripOfSpaced(before, Dec(n), after);
    DecIsLiteral(n);
    DigitsValueOfDec(n);
  }

  /** ... and a sign before them. */
  lemma {:induction false} ParseIntOfSigned(n: nat, sign: char, before: string, after: string)
    requires (sign == '+' || sign == '-') && AllSpace(before) && AllSpace(after)
    ensures var m: int := n; ParseInt(before + ([sign] + Dec(n)) + after) == Some(if sign == '-' then -m else m)
  {
    var s := [sign] + Dec(n);
    DecEnds(n);
    DigitIsNoSpace(sign);
    assert s[|s| - 1] == Dec(n)[|Dec(n)| - 1];
    StripOfSpaced(before, s, after);
    SignedParses(before + s + after, sign, n);
  }

  lemma {:induction false} SignedParses(raw: string, sign: char, n: nat)
    requires (sign == '+' || sign == '-') && Strip(raw) == [sign] + Dec(n)
    ensures var m: int := n; ParseInt(raw) == Some(if sign == '-' then -m else m)
  {
    assert ([sign] + Dec(n))[1..] == Dec(n);
    DecIsLiteral(n);
    DigitsValueOfDec(n);
  }

  lemma {:induction false} StripOfSpaced(before: string, s: string, after: string)
    requires AllSpace(before) && AllSpace(after) && s != "" && !PySpace(s[0]) && !PySpace(s[|s| - 1])
    ensures Strip(before + s + after) == s
  {
    LStripOfSpaced(before, s + after);
    assert before + s + after == before + (s + after);
    RStripOfSpaced(s, after);
  }

  lemma {:induction false} LStripOfSpaced(before: string, s: string)
    requires AllSpace(before) && s != "" && !PySpace(s[0])
    ensures LStrip(before + s) == s
  {
    if before == "" {
      assert before + s == s;
    } else {
      assert (before + s)[0] == before[0] && (before + s)[1..] == before[1..] + s;
      LStripOfSpaced(before[1..], s);
    }
  }

  lemma {:induction false} RStripOfSpaced(s: string, after: string)
    requires AllSpace(after) && s != "" && !PySpace(s[|s| - 1])
    ensures RStrip(s + after) == s
  {
    if after == "" {
      assert s + after == s;
    } else {
      var n := |after| - 1;
      assert (s + after)[|s| + n] == after[n] && (s + after)[..|s| + n] == s + after[..n];
      RStripOfSpaced(s, after[..n]);
    }
  }

  lemma {:induction false} NegativeIsStripped(n: nat)
    ensures Strip("-" + Dec(n)) == "-" + Dec(n)
  {
    var s := "-" + Dec(n);
    assert !PySpace(s[0]) && !PySpace(s[|s| - 1]);
  }

  lemma {:induction false} ParseIntOfStr(n: int)
    ensures ParseInt(Str(n)) == Some(n)
  {
    if n >= 0 {
      ParseIntOfDec(n);
    } else {
      assert Str(n)[1..] == Dec(-n);
      NegativeIsStripped(-n);
      DecIsLiteral(-n);
      DigitsValueOfDec(-n);
    }
  }
}
