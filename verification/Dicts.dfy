/** Dictionaries with an insertion order, and `sorted` over their items. */
module Dicts {
  import opened Prelude

  type Item = (string, string)

  /** The items in insertion order. */
  type Dict = seq<Item>

  ghost predicate DistinctKeys(d: Dict) {
    forall i, j | 0 <= i < j < |d| :: d[i].0 != d[j].0
  }

  /** Assigning the items one after another, later ones winning. */
  function Overlay(env: map<string, string>, items: seq<Item>): map<string, string>
    decreases |items|
  {
    if items == [] then env else Overlay(env[items[0].0 := items[0].1], items[1..])
  }

  function ToMap(d: Dict): map<string, string> {
    Overlay(map[], d)
  }

  lemma {:induction false} OverlayAppend(env: map<string, string>, a: seq<Item>, b: seq<Item>)
    ensures Overlay(env, a + b) == Overlay(Overlay(env, a), b)
    decreases |a|
  {
    if a == [] {
      assert a + b == b;
    } else {
      assert (a + b)[0] == a[0] && (a + b)[1..] == a[1..] + b;
      OverlayAppend(env[a[0].0 := a[0].1], a[1..], b);
    }
  }

  lemma {:induction false} OverlayIsUnion(env: map<string, string>, items: seq<Item>)
    ensures Overlay(env, items) == env + ToMap(items)
    decreases |items|
  {
    if items != [] {
      var first := map[items[0].0 := items[0].1];
      OverlayIsUnion(env[items[0].0 := items[0].1], items[1..]);
      OverlayIsUnion(first, items[1..]);
      assert env[items[0].0 := items[0].1] == env + first;
      assert ToMap(items) == Overlay(first, items[1..]);
      assert env + first + ToMap(items[1..]) == env + (first + ToMap(items[1..]));
    }
  }

  lemma {:induction false} OtherKeysOnly(d: Dict, key: string)
    requires forall i | 0 <= i < |d| :: d[i].0 != key
    ensures key !in ToMap(d)
    decreases |d|
  {
    if d != [] {
      OtherKeysOnly(d[1..], key);
      OverlayIsUnion(map[d[0].0 := d[0].1], d[1..]);
    }
  }

  /** With distinct keys the map holds exactly the items. */
  lemma {:induction false} ItemsOfMap(d: Dict)
    requires DistinctKeys(d)
    ensures forall k, v :: k in ToMap(d) && ToMap(d)[k] == v <==> (k, v) in d
    decreases |d|
  {
    if d != [] {
      ItemsOfMap(d[1..]);
      var first := map[d[0].0 := d[0].1];
      OverlayIsUnion(first, d[1..]);
      assert d == [d[0]] + d[1..];
      assert ToMap(d) == first + ToMap(d[1..]);
      OtherKeysOnly(d[1..], d[0].0);
    }
  }

  // ---- Sorting by key ----

  /** Code-point order of strings. */
  predicate Less(a: string, b: string) {
    if b == "" then false
    else if a == "" then true
    else a[0] < b[0] || (a[0] == b[0] && Less(a[1..], b[1..]))
  }

  lemma {:induction false} LessIsTotal(a: string, b: string)
    ensures !(Less(a, b) && Less(b, a))
    ensures a == b || Less(a, b) || Less(b, a)
    ensures a == b ==> !Less(a, b)
    decreases |a|
  {
    if a != "" && b != "" {
      LessIsTotal(a[1..], b[1..]);
      assert a == [a[0]] + a[1..] && b == [b[0]] + b[1..];
    }
  }

  /** One is a proper beginning of the other, or has the smaller character where they first differ. */
  ghost predicate ComesBefore(a: string, b: string) {
    || (a <= b && a != b)
    || exists k :: DiffersAt(a, b, k)
  }

  ghost predicate DiffersAt(a: string, b: string, k: int) {
    0 <= k < |a| && k < |b| && a[..k] == b[..k] && a[k] < b[k]
  }

  lemma {:induction false} DiffersLater(a: string, b: string, k: int)
    requires a != "" && b != "" && a[0] == b[0]
    ensures DiffersAt(a, b, k) <==> DiffersAt(a[1..], b[1..], k - 1)
  {
    if 0 < k <= |a| && k <= |b| {
      assert a[..k] == [a[0]] + a[1..][..k - 1] && b[..k] == [b[0]] + b[1..][..k - 1];
      assert a[..k][1..] == a[1..][..k - 1] && b[..k][1..] == b[1..][..k - 1];
    }
  }

  lemma {:induction false} LessIsCodePointOrder(a: string, b: string)
    ensures Less(a, b) <==> ComesBefore(a, b)
    decreases |a|
  {
    if a != "" && b != "" && a[0] == b[0] {
      LessIsCodePointOrder(a[1..], b[1..]);
      assert a == [a[0]] + a[1..] && b == [b[0]] + b[1..];
      if k :| DiffersAt(a[1..], b[1..], k) {
        DiffersLater(a, b, k + 1);
      }
      if k :| DiffersAt(a, b, k) {
        DiffersLater(a, b, k);
      }
    } else if a != "" && b != "" && a[0] < b[0] {
      assert DiffersAt(a, b, 0);
    }
  }

  lemma {:induction false} LessIsTransitive(a: string, b: string, c: string)
    requires Less(a, b) && Less(b, c)
    ensures Less(a, c)
    decreases |a|
  {
    if a != "" && a[0] == b[0] == c[0] {
      LessIsTransitive(a[1..], b[1..], c[1..]);
    }
  }

  ghost predicate Sorted(s: seq<Item>) {
    forall i, j | 0 <= i < j < |s| :: Less(s[i].0, s[j].0)
  }

  predicate KeyLess(a: Item, b: Item) {
    Less(a.0, b.0)
  }

  /** `sorted(d.items())`; keys are distinct, so values are never compared. */
  function SortedItems(d: Dict): seq<Item> {
    SortBy(KeyLess, d)
  }

  lemma {:induction false} InsertSorts(item: Item, s: seq<Item>)
    requires Sorted(s) && forall x | x in s :: x.0 != item.0
    ensures Sorted(InsertBy(KeyLess, item, s))
  {
    if s == [] {
    } else if !KeyLess(s[0], item) {
      LessIsTotal(item.0, s[0].0);
      forall j | 0 < j < |s| ensures Less(item.0, s[j].0) {
        LessIsTransitive(item.0, s[0].0, s[j].0);
      }
    } else {
      var r := InsertBy(KeyLess, item, s[1..]);
      InsertSorts(item, s[1..]);
      InsertKeeps(KeyLess, item, s[1..]);
      forall j | 0 <= j < |r| ensures Less(s[0].0, r[j].0) {
        assert r[j] in multiset(r);
      }
    }
  }

  lemma {:induction false} SortedItemsSorted(d: Dict)
    requires DistinctKeys(d)
    ensures Sorted(SortedItems(d)) && forall x :: x in SortedItems(d) <==> x in d
  {
    SortingKeepsItems(d);
    if d != [] {
      SortingKeepsItems(d[1..]);
      SortedItemsSorted(d[1..]);
      InsertSorts(d[0], SortedItems(d[1..]));
    }
  }

  lemma {:induction false} SortingKeepsItems(d: Dict)
    ensures forall x :: x in SortedItems(d) <==> x in d
  {
    SortKeeps(KeyLess, d);
    assert SortedItems(d) == SortBy(KeyLess, d);
    SameMembers(SortedItems(d), d);
  }

  lemma {:induction false} SameMembers(a: Dict, b: Dict)
    requires multiset(a) == multiset(b)
    ensures forall x :: x in a <==> x in b
  {
    assert forall x :: x in a <==> x in multiset(a);
  }

  /** A sorted list is determined by what it holds. */
  lemma {:induction false} SortedUnique(a: seq<Item>, b: seq<Item>)
    requires Sorted(a) && Sorted(b) && forall x :: x in a <==> x in b
    ensures a == b
    decreases |a|
  {
    if a == [] {
      HoldsItsFirst(b);
    } else {
      assert a[0] in a;
      FirstIsFirst(a, b);
      FirstIsOnce(a);
      FirstIsOnce(b);
      forall x ensures x in a[1..] <==> x in b[1..] {
        HeadOrTail(a, x);
        HeadOrTail(b, x);
      }
      SortedUnique(a[1..], b[1..]);
      assert a == [a[0]] + a[1..] && b == [b[0]] + b[1..];
    }
  }

  lemma HoldsItsFirst(s: seq<Item>)
    ensures s != [] ==> s[0] in s
  {
  }

  lemma HeadOrTail(s: seq<Item>, x: Item)
    requires s != []
    ensures x in s <==> x == s[0] || x in s[1..]
  {
    assert s == [s[0]] + s[1..];
  }

  lemma FirstIsOnce(s: seq<Item>)
    requires Sorted(s) && s != []
    ensures s[0] !in s[1..]
  {
    LessIsTotal(s[0].0, s[0].0);
  }

  lemma FirstIsFirst(a: seq<Item>, b: seq<Item>)
    requires Sorted(a) && Sorted(b) && a != [] && b != [] && a[0] in b && b[0] in a
    ensures a[0] == b[0]
  {
    var i :| 0 <= i < |b| && b[i] == a[0];
    var j :| 0 <= j < |a| && a[j] == b[0];
    LessIsTotal(a[0].0, b[0].0);
  }

  /** What a dictionary sorts to, and what it means as assignments, depend on its contents alone. */
  lemma SortingForgetsInsertionOrder(d: Dict, e: Dict)
    requires DistinctKeys(d) && DistinctKeys(e) && ToMap(d) == ToMap(e)
    ensures SortedItems(d) == SortedItems(e)
  {
    SortedItemsSorted(d);
    SortedItemsSorted(e);
    ItemsOfMap(d);
    ItemsOfMap(e);
    forall x ensures x in SortedItems(d) <==> x in SortedItems(e) {
      assert x == (x.0, x.1);
    }
    SortedUnique(SortedItems(d), SortedItems(e));
  }

  lemma SortedKeepsMap(d: Dict)
    requires DistinctKeys(d)
    ensures ToMap(SortedItems(d)) == ToMap(d)
  {
    SortedItemsSorted(d);
    SortedIsDistinct(SortedItems(d));
    ItemsOfMap(d);
    ItemsOfMap(SortedItems(d));
    var a, b := ToMap(SortedItems(d)), ToMap(d);
    forall k ensures k in a <==> k in b {
      if k in a { assert (k, a[k]) in d; }
      if k in b { assert (k, b[k]) in SortedItems(d); }
    }
    forall k | k in a ensures a[k] == b[k] {
      assert (k, a[k]) in d;
    }
  }

  lemma SortedIsDistinct(s: seq<Item>)
    requires Sorted(s)
    ensures DistinctKeys(s)
  {
    forall i, j | 0 <= i < j < |s| ensures s[i].0 != s[j].0 {
      LessIsTotal(s[i].0, s[j].0);
    }
  }
}
