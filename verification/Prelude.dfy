/** Small definitions shared by every module of the project. */
module Prelude {

  datatype Option<+T> = None | Some(value: T)

  datatype Result<+T, +E> = Ok(value: T) | Err(error: E)

  function Or<T>(given: Option<T>, otherwise: T): T {
    if given.Some? then given.value else otherwise
  }

  function Min(a: int, b: int): int {
    if a <= b then a else b
  }

  function Max(a: int, b: int): int {
    if a >= b then a else b
  }

  /** A left fold: the shape of every character-fed or step-fed machine below. */
  function Fold<S, T>(step: (S, T) -> S, s: S, xs: seq<T>): S
    decreases |xs|
  {
    if xs == [] then s else Fold(step, step(s, xs[0]), xs[1..])
  }

  lemma {:induction false} FoldAppend<S, T>(step: (S, T) -> S, s: S, xs: seq<T>, ys: seq<T>)
    ensures Fold(step, s, xs + ys) == Fold(step, Fold(step, s, xs), ys)
    decreases |xs|
  {
    if xs == [] {
      assert xs + ys == ys;
    } else {
      assert (xs + ys)[0] == xs[0] && (xs + ys)[1..] == xs[1..] + ys;
      FoldAppend(step, step(s, xs[0]), xs[1..], ys);
    }
  }

  lemma FoldOne<S, T>(step: (S, T) -> S, s: S, x: T)
    ensures Fold(step, s, [x]) == step(s, x)
  {
    assert [x][1..] == [];
    assert Fold(step, step(s, x), []) == step(s, x);
  }

  lemma FoldThree<S, T>(step: (S, T) -> S, s: S, xs: seq<T>)
    requires |xs| == 3
    ensures Fold(step, s, xs) == step(step(step(s, xs[0]), xs[1]), xs[2])
  {
    var s1 := step(s, xs[0]);
    var s2 := step(s1, xs[1]);
    assert xs[1..][1..] == xs[2..] && xs[2..][1..] == [];
    assert Fold(step, s1, xs[1..]) == Fold(step, s2, xs[2..]);
    assert Fold(step, s2, xs[2..]) == Fold(step, step(s2, xs[2]), []);
  }

  lemma FirstAndRest<T>(x: T, rest: seq<T>)
    ensures [x] + rest != [] && ([x] + rest)[0] == x && ([x] + rest)[1..] == rest
  {
  }

  lemma Associative<T>(a: seq<T>, b: seq<T>, c: seq<T>)
    ensures a + b + c == a + (b + c)
  {
  }

  function Flatten<T>(xss: seq<seq<T>>): seq<T> {
    if xss == [] then [] else xss[0] + Flatten(xss[1..])
  }

  lemma {:induction false} FlattenAppend<T>(xss: seq<seq<T>>, yss: seq<seq<T>>)
    ensures Flatten(xss + yss) == Flatten(xss) + Flatten(yss)
  {
    if xss == [] {
      assert xss + yss == yss;
    } else {
      assert (xss + yss)[1..] == xss[1..] + yss;
      FlattenAppend(xss[1..], yss);
      Associative(xss[0], Flatten(xss[1..]), Flatten(yss));
    }
  }

  /** What f makes of each element, in order. */
  function Collect<S, T>(f: S -> seq<T>, xs: seq<S>): seq<T> {
    if xs == [] then [] else f(xs[0]) + Collect(f, xs[1..])
  }

  lemma {:induction false} CollectAppend<S, T>(f: S -> seq<T>, xs: seq<S>, ys: seq<S>)
    ensures Collect(f, xs + ys) == Collect(f, xs) + Collect(f, ys)
  {
    if xs == [] {
      assert xs + ys == ys;
    } else {
      assert (xs + ys)[0] == xs[0] && (xs + ys)[1..] == xs[1..] + ys;
      CollectAppend(f, xs[1..], ys);
      Associative(f(xs[0]), Collect(f, xs[1..]), Collect(f, ys));
    }
  }

  lemma {:induction false} CollectOne<S, T>(f: S -> seq<T>, x: S)
    ensures Collect(f, [x]) == f(x)
  {
    assert [x][1..] == [];
    assert f(x) + [] == f(x);
  }

  /**
   How many elements have all that f makes of them within the first n places,
   and how far into the next those reach.
   */
  function WholeWithin<S, T>(f: S -> seq<T>, xs: seq<S>, n: nat): (w: nat)
    ensures w <= |xs|
  {
    if xs == [] || n < |f(xs[0])| then 0 else 1 + WholeWithin(f, xs[1..], n - |f(xs[0])|)
  }

  function IntoNext<S, T>(f: S -> seq<T>, xs: seq<S>, n: nat): nat {
    if xs == [] || n < |f(xs[0])| then n else IntoNext(f, xs[1..], n - |f(xs[0])|)
  }

  lemma {:induction false} TakeCollected<S, T>(f: S -> seq<T>, xs: seq<S>, n: nat)
    requires n <= |Collect(f, xs)|
    ensures var w, r := WholeWithin(f, xs, n), IntoNext(f, xs, n);
            if w == |xs| then r == 0 && Collect(f, xs)[..n] == Collect(f, xs)
            else r < |f(xs[w])| && Collect(f, xs)[..n] == Collect(f, xs[..w]) + f(xs[w])[..r]
    decreases |xs|
  {
    if xs != [] {
      var first, rest := f(xs[0]), Collect(f, xs[1..]);
      if n < |first| {
        assert (first + rest)[..n] == first[..n] && xs[..0] == [] && [] + first[..n] == first[..n];
      } else {
        var w, r := WholeWithin(f, xs[1..], n - |first|), IntoNext(f, xs[1..], n - |first|);
        TakeCollected(f, xs[1..], n - |first|);
        assert (first + rest)[..n] == first + rest[..n - |first|];
        assert xs[..w + 1][1..] == xs[1..][..w];
        if w < |xs[1..]| {
          Associative(first, Collect(f, xs[1..][..w]), f(xs[1..][w])[..r]);
        }
      }
    }
  }

  lemma {:induction false} WholeBoth<S, T>(f: S -> seq<T>, xs: seq<S>, ys: seq<S>, n: nat)
    ensures WholeWithin(f, xs + ys, |Collect(f, xs)| + n) == |xs| + WholeWithin(f, ys, n)
    ensures IntoNext(f, xs + ys, |Collect(f, xs)| + n) == IntoNext(f, ys, n)
  {
    if xs == [] {
      assert xs + ys == ys;
    } else {
      assert (xs + ys)[0] == xs[0] && (xs + ys)[1..] == xs[1..] + ys;
      WholeBoth(f, xs[1..], ys, n);
    }
  }

  /** A strict order, for insertion sort. */
  type Order<!T> = (T, T) -> bool

  function InsertBy<T>(less: Order<T>, x: T, sorted: seq<T>): seq<T> {
    if sorted == [] || !less(sorted[0], x) then [x] + sorted else [sorted[0]] + InsertBy(less, x, sorted[1..])
  }

  function SortBy<T>(less: Order<T>, xs: seq<T>): seq<T> {
    if xs == [] then [] else InsertBy(less, xs[0], SortBy(less, xs[1..]))
  }

  lemma {:induction false} InsertKeeps<T>(less: Order<T>, x: T, sorted: seq<T>)
    ensures multiset(InsertBy(less, x, sorted)) == multiset(sorted) + multiset{x}
  {
    if sorted != [] && less(sorted[0], x) {
      InsertKeeps(less, x, sorted[1..]);
      assert sorted == [sorted[0]] + sorted[1..];
    }
  }

  /** Sorting keeps every element, as often as it was there. */
  lemma {:induction false} SortKeeps<T>(less: Order<T>, xs: seq<T>)
    ensures multiset(SortBy(less, xs)) == multiset(xs)
  {
    if xs != [] {
      SortKeeps(less, xs[1..]);
      InsertKeeps(less, xs[0], SortBy(less, xs[1..]));
      assert xs == [xs[0]] + xs[1..];
    }
  }

  // ---- A list of texts, cut anywhere ----

  /** So many elements came whole, and so much of the next one. */
  datatype Place = Place(whole: nat, into: nat)

  function PlaceOf<T>(size: T -> nat, xs: seq<T>, k: nat): (p: Place)
    ensures p.whole <= |xs|
    ensures p.whole < |xs| ==> p.into < size(xs[p.whole])
  {
    if xs == [] || k < size(xs[0]) then Place(0, k)
    else
      var p := PlaceOf(size, xs[1..], k - size(xs[0]));
      Place(p.whole + 1, p.into)
  }

  /** A left fold over what came: `part` is for the element that came in part. */
  function FoldUpTo<S, T>(step: (S, T) -> S, part: (S, T, nat) -> S, size: T -> nat, s: S, xs: seq<T>, k: nat): S
    decreases |xs|
  {
    if xs == [] then s
    else if k < size(xs[0]) then part(s, xs[0], k)
    else FoldUpTo(step, part, size, step(s, xs[0]), xs[1..], k - size(xs[0]))
  }

  lemma {:induction false} FoldUpToPlace<S, T>(
    step: (S, T) -> S, part: (S, T, nat) -> S, size: T -> nat, s: S, xs: seq<T>, k: nat)
    ensures var p := PlaceOf(size, xs, k);
            var whole := Fold(step, s, xs[..p.whole]);
            FoldUpTo(step, part, size, s, xs, k)
            == if p.whole < |xs| then part(whole, xs[p.whole], p.into) else whole
    decreases |xs|
  {
    if xs != [] && k >= size(xs[0]) {
      var p := PlaceOf(size, xs[1..], k - size(xs[0]));
      FoldUpToPlace(step, part, size, step(s, xs[0]), xs[1..], k - size(xs[0]));
      assert xs[..p.whole + 1] == [xs[0]] + xs[1..][..p.whole];
    }
  }

  function Join(parts: seq<string>, separator: string): string {
    if parts == [] then ""
    else if |parts| == 1 then parts[0]
    else parts[0] + separator + Join(parts[1..], separator)
  }

  lemma {:induction false} SubsetIsSmaller<T>(a: set<T>, b: set<T>)
    requires a <= b
    ensures |a| <= |b|
  {
    if a != {} {
      var x :| x in a;
      SubsetIsSmaller(a - {x}, b - {x});
    }
  }
}
