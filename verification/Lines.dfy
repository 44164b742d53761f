/** Splitting a stream into lines while it arrives in pieces; shared by every chunk-fed reader. */
module Lines {
  import opened Prelude

  function IndexOf<T(==)>(s: seq<T>, x: T): (k: nat)
    ensures k <= |s|
    ensures k < |s| ==> s[k] == x
    ensures forall i | 0 <= i < k :: s[i] != x
  {
    if s == [] || s[0] == x then 0 else IndexOf(s[1..], x) + 1
  }

  /** The terminated lines of s, without their terminators. */
  function Complete<T(==)>(s: seq<T>, nl: T): seq<seq<T>>
    decreases |s|
  {
    var k := IndexOf(s, nl);
    if k == |s| then [] else [s[..k]] + Complete(s[k + 1..], nl)
  }

  /** What follows the last terminator. */
  function Rest<T(==)>(s: seq<T>, nl: T): (r: seq<T>)
    ensures nl !in r
    decreases |s|
  {
    var k := IndexOf(s, nl);
    if k == |s| then s else Rest(s[k + 1..], nl)
  }

  lemma {:induction false} FirstComplete<T>(s: seq<T>, nl: T)
    requires IndexOf(s, nl) < |s|
    ensures var k := IndexOf(s, nl);
            && Complete(s, nl) == [s[..k]] + Complete(s[k + 1..], nl)
            && Rest(s, nl) == Rest(s[k + 1..], nl)
  {
  }

  lemma {:induction false} IndexOfUnique<T>(s: seq<T>, x: T, k: nat)
    requires k <= |s| && (forall i | 0 <= i < k :: s[i] != x) && (k < |s| ==> s[k] == x)
    ensures IndexOf(s, x) == k
  {
  }

  /** Buffering the rest and splitting again is splitting the whole. */
  lemma {:induction false} SplitInPieces<T>(a: seq<T>, b: seq<T>, nl: T)
    ensures Complete(a + b, nl) == Complete(a, nl) + Complete(Rest(a, nl) + b, nl)
    ensures Rest(a + b, nl) == Rest(Rest(a, nl) + b, nl)
    decreases |a|
  {
    var k := IndexOf(a, nl);
    if k < |a| {
      assert (a + b)[..k] == a[..k] && (a + b)[k + 1..] == a[k + 1..] + b;
      IndexOfUnique(a + b, nl, k);
      FirstComplete(a, nl);
      FirstComplete(a + b, nl);
      SplitInPieces(a[k + 1..], b, nl);
      Associative([a[..k]], Complete(a[k + 1..], nl), Complete(Rest(a, nl) + b, nl));
    } else {
      assert [] + Complete(a + b, nl) == Complete(a + b, nl);
    }
  }

  /** A line and its terminator. */
  lemma {:induction false} SplitLine<T>(line: seq<T>, nl: T)
    requires nl !in line
    ensures Complete(line + [nl], nl) == [line] && Rest(line + [nl], nl) == []
  {
    var s := line + [nl];
    assert s[..|line|] == line;
    IndexOfUnique(s, nl, |line|);
    assert s[|line| + 1..] == [];
  }

  lemma {:induction false} SplitNone<T>(s: seq<T>, nl: T)
    requires nl !in s
    ensures Complete(s, nl) == [] && Rest(s, nl) == s
  {
    assert s[..|s|] == s;
    IndexOfUnique(s, nl, |s|);
  }

  /** Lines written out, each followed by its terminator. */
  function Terminated<T>(lines: seq<seq<T>>, nl: T): seq<T> {
    if lines == [] then [] else lines[0] + [nl] + Terminated(lines[1..], nl)
  }

  lemma {:induction false} TerminatedAppend<T>(a: seq<seq<T>>, b: seq<seq<T>>, nl: T)
    ensures Terminated(a + b, nl) == Terminated(a, nl) + Terminated(b, nl)
  {
    if a == [] {
      assert a + b == b;
    } else {
      assert (a + b)[0] == a[0] && (a + b)[1..] == a[1..] + b;
      TerminatedAppend(a[1..], b, nl);
      Associative(a[0] + [nl], Terminated(a[1..], nl), Terminated(b, nl));
    }
  }

  /** How many of the lines are terminated within the first k elements. */
  function LinesWithin<T>(lines: seq<seq<T>>, k: nat): (n: nat)
    ensures n <= |lines|
  {
    if lines == [] || k <= |lines[0]| then 0 else 1 + LinesWithin(lines[1..], k - |lines[0]| - 1)
  }

  lemma {:induction false} LinesWithinBoth<T>(a: seq<seq<T>>, b: seq<seq<T>>, nl: T, k: nat)
    ensures LinesWithin(a + b, |Terminated(a, nl)| + k) == |a| + LinesWithin(b, k)
    decreases |a|
  {
    if a == [] {
      assert a + b == b;
    } else {
      assert (a + b)[0] == a[0] && (a + b)[1..] == a[1..] + b;
      LinesWithinBoth(a[1..], b, nl, k);
    }
  }

  /** Cutting written lines anywhere leaves exactly the lines terminated before the cut. */
  lemma {:induction false} CutTerminated<T>(lines: seq<seq<T>>, nl: T, k: nat)
    requires k <= |Terminated(lines, nl)| && forall line | line in lines :: nl !in line
    ensures Complete(Terminated(lines, nl)[..k], nl) == lines[..LinesWithin(lines, k)]
    decreases |lines|
  {
    var text := Terminated(lines, nl);
    if lines == [] || k <= |lines[0]| {
      assert lines != [] ==> text[..k] == lines[0][..k] && lines[0] in lines;
      SplitNone(text[..k], nl);
    } else {
      var line, rest := lines[0], lines[1..];
      assert line in lines;
      var k' := k - |line| - 1;
      TakeFromConcat(line + [nl], Terminated(rest, nl), k);
      CompleteAfterLine(line, nl, Terminated(rest, nl)[..k']);
      CutTerminated(rest, nl, k');
      TakeFromConcat([line], rest, LinesWithin(rest, k') + 1);
      assert [line] + rest == lines;
    }
  }

  lemma {:induction false} TakeFromConcat<T>(a: seq<T>, b: seq<T>, k: nat)
    requires |a| <= k <= |a| + |b|
    ensures (a + b)[..k] == a + b[..k - |a|]
  {
  }

  lemma {:induction false} CompleteAfterLine<T>(line: seq<T>, nl: T, rest: seq<T>)
    requires nl !in line
    ensures Complete(line + [nl] + rest, nl) == [line] + Complete(rest, nl)
            && Rest(line + [nl] + rest, nl) == Rest(rest, nl)
  {
    SplitLine(line, nl);
    SplitInPieces(line + [nl], rest, nl);
    assert [] + rest == rest;
  }

  lemma {:induction false} AllTerminated<T>(lines: seq<seq<T>>, nl: T)
    requires forall line | line in lines :: nl !in line
    ensures Complete(Terminated(lines, nl), nl) == lines && Rest(Terminated(lines, nl), nl) == []
    ensures LinesWithin(lines, |Terminated(lines, nl)|) == |lines|
    decreases |lines|
  {
    if lines == [] {
      SplitNone(Terminated(lines, nl), nl);
    } else {
      var line, rest := lines[0], Terminated(lines[1..], nl);
      assert line in lines;
      CompleteAfterLine(line, nl, rest);
      AllTerminated(lines[1..], nl);
    }
  }
}
