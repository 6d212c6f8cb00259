/**
 Stable sorting by an integer key, as the snapshot parser sorts projects, tasks and dependency identifiers,
 and the facts about canonical (strictly sorted) sequences that the canonical-form results rest on.
 */
module Sorting {
  ghost predicate Sorted<T(!new)>(key: T -> int, s: seq<T>) {
    forall i, j :: 0 <= i < j < |s| ==> key(s[i]) <= key(s[j])
  }

  /** Strictly increasing keys: sorted and free of duplicates. */
  ghost predicate Canonical<T(!new)>(key: T -> int, s: seq<T>) {
    forall i, j :: 0 <= i < j < |s| ==> key(s[i]) < key(s[j])
  }

  ghost predicate DistinctKeys<T(!new)>(key: T -> int, s: seq<T>) {
    forall i, j :: 0 <= i < j < |s| ==> key(s[i]) != key(s[j])
  }

  function Insert<T(!new)>(key: T -> int, x: T, s: seq<T>): (r: seq<T>)
    ensures multiset(r) == multiset{x} + multiset(s)
    ensures |r| == |s| + 1
    ensures Sorted(key, s) ==> Sorted(key, r)
    ensures forall y :: y in r <==> y == x || y in s
  {
    if s == [] then [x]
    else if key(x) <= key(s[0]) then [x] + s
    else
      assert s == [s[0]] + s[1..];
      var rest := Insert(key, x, s[1..]);
      assert Sorted(key, s) ==> Sorted(key, rest) by {
        if Sorted(key, s) { assert Sorted(key, s[1..]); }
      }
      assert forall y :: y in rest ==> y == x || y in s[1..];
      assert Sorted(key, s) ==> forall y :: y in rest ==> key(s[0]) <= key(y);
      [s[0]] + rest
  }

  function Sort<T(!new)>(key: T -> int, s: seq<T>): (r: seq<T>)
    ensures multiset(r) == multiset(s)
    ensures |r| == |s|
    ensures Sorted(key, r)
    ensures forall y :: y in r <==> y in s
  {
    if s == [] then []
    else
      assert s == [s[0]] + s[1..];
      Insert(key, s[0], Sort(key, s[1..]))
  }

  lemma InSameElements<T(!new)>(a: seq<T>, b: seq<T>)
    requires multiset(a) == multiset(b)
    ensures |a| == |b|
    ensures forall y :: y in a <==> y in b
  {
    assert |multiset(a)| == |multiset(b)|;
    forall y ensures y in a <==> y in b {
      assert y in a <==> y in multiset(a);
      assert y in b <==> y in multiset(b);
    }
  }

  lemma CanonicalIsDistinct<T(!new)>(key: T -> int, s: seq<T>)
    requires Sorted(key, s) && DistinctKeys(key, s)
    ensures Canonical(key, s)
  {
  }

  /** The head of a canonical sequence is the only element with the least key. */
  lemma CanonicalHead<T(!new)>(key: T -> int, a: seq<T>, b: seq<T>)
    requires Canonical(key, a) && Canonical(key, b) && multiset(a) == multiset(b) && |a| > 0
    ensures |b| > 0 && a[0] == b[0]
  {
    InSameElements(a, b);
    assert b[0] in a && a[0] in b;
    HeadIsLeast(key, a, b[0]);
    HeadIsLeast(key, b, a[0]);
    assert DistinctKeys(key, a);
    KeyDetermines(key, a, a[0], b[0]);
  }

  lemma HeadIsLeast<T(!new)>(key: T -> int, a: seq<T>, y: T)
    requires Canonical(key, a) && y in a
    ensures key(a[0]) <= key(y)
  {
    var i :| 0 <= i < |a| && a[i] == y;
    if i > 0 {
      assert key(a[0]) < key(a[i]);
    }
  }

  lemma TailCanonical<T(!new)>(key: T -> int, a: seq<T>)
    requires Canonical(key, a) && |a| > 0
    ensures Canonical(key, a[1..])
    ensures multiset(a[1..]) == multiset(a) - multiset{a[0]}
  {
    assert a == [a[0]] + a[1..];
  }

  /** A canonical sequence is determined by its elements. */
  lemma {:induction false} CanonicalUnique<T(!new)>(key: T -> int, a: seq<T>, b: seq<T>)
    requires Canonical(key, a) && Canonical(key, b) && multiset(a) == multiset(b)
    ensures a == b
  {
    InSameElements(a, b);
    if |a| > 0 {
      CanonicalHead(key, a, b);
      TailCanonical(key, a);
      TailCanonical(key, b);
      CanonicalUnique(key, a[1..], b[1..]);
      assert a == [a[0]] + a[1..] && b == [b[0]] + b[1..];
    }
  }

  lemma TailMembers<T(!new)>(key: T -> int, a: seq<T>)
    requires Canonical(key, a) && |a| > 0
    ensures forall x :: x in a[1..] <==> x in a && x != a[0]
  {
    assert a == [a[0]] + a[1..];
    forall x | x in a[1..] ensures x != a[0] {
      var i :| 0 <= i < |a[1..]| && a[1..][i] == x;
      assert key(a[0]) < key(a[i + 1]);
    }
  }

  lemma SameHead<T(!new)>(key: T -> int, a: seq<T>, b: seq<T>)
    requires Canonical(key, a) && Canonical(key, b) && |a| > 0 && |b| > 0
    requires a[0] in b && b[0] in a
    ensures a[0] == b[0]
  {
    HeadIsLeast(key, a, b[0]);
    HeadIsLeast(key, b, a[0]);
    assert DistinctKeys(key, a);
    assert a[0] in a;
    KeyDetermines(key, a, a[0], b[0]);
  }

  lemma SameTails<T(!new)>(key: T -> int, a: seq<T>, b: seq<T>)
    requires Canonical(key, a) && Canonical(key, b) && |a| > 0 && |b| > 0 && a[0] == b[0]
    requires forall x :: x in a <==> x in b
    ensures Canonical(key, a[1..]) && Canonical(key, b[1..]) && forall x :: x in a[1..] <==> x in b[1..]
  {
    hide Canonical;
    TailCanonical(key, a);
    TailCanonical(key, b);
    TailMembers(key, a);
    TailMembers(key, b);
  }

  /** Canonical sequences with the same members are the same. */
  lemma {:induction false} CanonicalSameMembers<T(!new)>(key: T -> int, a: seq<T>, b: seq<T>)
    requires Canonical(key, a) && Canonical(key, b) && forall x :: x in a <==> x in b
    ensures a == b
    decreases |a|
  {
    hide Canonical;
    assert |b| > 0 ==> b[0] in a;
    if |a| > 0 {
      assert a[0] in b;
      SameHead(key, a, b);
      SameTails(key, a, b);
      CanonicalSameMembers(key, a[1..], b[1..]);
      assert a == [a[0]] + a[1..] && b == [b[0]] + b[1..];
    }
  }

  /** Duplicate keys are a matter of the elements alone, not of their order. */
  lemma DistinctByElements<T(!new)>(key: T -> int, a: seq<T>, b: seq<T>)
    requires multiset(a) == multiset(b) && DistinctKeys(key, a)
    ensures DistinctKeys(key, b)
  {
    InSameElements(a, b);
    forall i, j | 0 <= i < j < |b| ensures key(b[i]) != key(b[j]) {
      assert b[i] in a && b[j] in a;
      if key(b[i]) == key(b[j]) {
        KeyDetermines(key, a, b[i], b[j]);
        AtMostOnce(key, a, b[j]);
        OccursTwice(b, i, j);
      }
    }
  }

  lemma KeyDetermines<T(!new)>(key: T -> int, a: seq<T>, x: T, y: T)
    requires DistinctKeys(key, a) && x in a && y in a && key(x) == key(y)
    ensures x == y
  {
    var k :| 0 <= k < |a| && a[k] == x;
    var l :| 0 <= l < |a| && a[l] == y;
  }

  lemma OccursTwice<T>(b: seq<T>, i: int, j: int)
    requires 0 <= i < j < |b| && b[i] == b[j]
    ensures multiset(b)[b[j]] >= 2
  {
    assert b == b[..j] + [b[j]] + b[j + 1..];
    assert b[..j][i] in b[..j];
  }

  lemma {:induction false} AtMostOnce<T(!new)>(key: T -> int, a: seq<T>, x: T)
    requires DistinctKeys(key, a)
    ensures multiset(a)[x] <= 1
  {
    if |a| > 0 {
      assert a == [a[0]] + a[1..];
      AtMostOnce(key, a[1..], x);
      forall i | 1 <= i < |a| ensures a[i] != a[0] { assert key(a[0]) != key(a[i]); }
      assert a[0] !in a[1..];
    }
  }

  lemma SortCanonical<T(!new)>(key: T -> int, s: seq<T>)
    requires Canonical(key, s)
    ensures Sort(key, s) == s
  {
    assert DistinctKeys(key, s);
    DistinctByElements(key, s, Sort(key, s));
    CanonicalIsDistinct(key, Sort(key, s));
    CanonicalUnique(key, s, Sort(key, s));
  }

  lemma SortDistinct<T(!new)>(key: T -> int, s: seq<T>)
    ensures DistinctKeys(key, s) <==> Canonical(key, Sort(key, s))
  {
    if DistinctKeys(key, s) {
      DistinctByElements(key, s, Sort(key, s));
      CanonicalIsDistinct(key, Sort(key, s));
    }
    if Canonical(key, Sort(key, s)) {
      assert DistinctKeys(key, Sort(key, s));
      DistinctByElements(key, Sort(key, s), s);
    }
  }

  /** Sorting forgets the order of its input whenever the keys are distinct. */
  lemma SortOrderIrrelevant<T(!new)>(key: T -> int, a: seq<T>, b: seq<T>)
    requires multiset(a) == multiset(b) && DistinctKeys(key, a)
    ensures DistinctKeys(key, b) && Sort(key, a) == Sort(key, b)
  {
    DistinctByElements(key, a, b);
    SortDistinct(key, a);
    SortDistinct(key, b);
    CanonicalUnique(key, Sort(key, a), Sort(key, b));
  }

  function Map<S, T>(f: S -> T, s: seq<S>): (r: seq<T>)
    ensures |r| == |s|
    ensures forall i :: 0 <= i < |s| ==> r[i] == f(s[i])
  {
    seq(|s|, i requires 0 <= i < |s| => f(s[i]))
  }

  lemma MapCons<S, T>(f: S -> T, s: seq<S>)
    requires |s| > 0
    ensures Map(f, s) == [f(s[0])] + Map(f, s[1..])
  {
  }

  lemma MapAppended<S, T>(f: S -> T, prefix: seq<T>, s: seq<S>, r: seq<T>)
    requires |s| > 0 && r == (prefix + [f(s[0])]) + Map(f, s[1..])
    ensures r == prefix + Map(f, s)
  {
    MapCons(f, s);
  }

  /** An element can be brought to the front without changing the elements. */
  lemma Front<T>(b: seq<T>, i: int)
    requires 0 <= i < |b|
    ensures multiset(b) == multiset{b[i]} + multiset(b[..i] + b[i + 1..])
  {
    assert b == b[..i] + [b[i]] + b[i + 1..];
  }

  lemma MapFront<S, T>(f: S -> T, b: seq<S>, i: int)
    requires 0 <= i < |b|
    ensures multiset(Map(f, b)) == multiset{f(b[i])} + multiset(Map(f, b[..i] + b[i + 1..]))
  {
    Front(Map(f, b), i);
    assert Map(f, b)[..i] + Map(f, b)[i + 1..] == Map(f, b[..i] + b[i + 1..]);
  }

  lemma CancelOne<T>(x: T, a: multiset<T>, b: multiset<T>)
    requires multiset{x} + a == multiset{x} + b
    ensures a == b
  {
    assert a == (multiset{x} + a) - multiset{x};
    assert b == (multiset{x} + b) - multiset{x};
  }

  /** The first element of one sequence is somewhere in a rearranged one; without it they are still rearranged. */
  lemma TailRearranged<T>(a: seq<T>, b: seq<T>) returns (i: nat)
    requires multiset(a) == multiset(b) && |a| > 0
    ensures i < |b| && b[i] == a[0] && multiset(a[1..]) == multiset(b[..i] + b[i + 1..])
  {
    assert a[0] in multiset(a);
    assert a[0] in multiset(b);
    i :| 0 <= i < |b| && b[i] == a[0];
    assert a[..0] + a[1..] == a[1..];
    Front(a, 0);
    Front(b, i);
    CancelOne(a[0], multiset(a[1..]), multiset(b[..i] + b[i + 1..]));
  }

  lemma MapHead<S, T>(f: S -> T, a: seq<S>)
    requires |a| > 0
    ensures multiset(Map(f, a)) == multiset{f(a[0])} + multiset(Map(f, a[1..]))
  {
    MapCons(f, a);
  }

  /** Mapping two rearranged sequences gives rearranged sequences. */
  lemma {:induction false} MapRearranged<S, T>(f: S -> T, a: seq<S>, b: seq<S>)
    requires multiset(a) == multiset(b)
    ensures multiset(Map(f, a)) == multiset(Map(f, b))
    decreases |a|
  {
    InSameSize(a, b);
    if |a| > 0 {
      var i := TailRearranged(a, b);
      var tail, rest := a[1..], b[..i] + b[i + 1..];
      MapRearranged(f, tail, rest);
      MapHead(f, a);
      MapFront(f, b, i);
    }
  }

  lemma InSameSize<T>(a: seq<T>, b: seq<T>)
    requires multiset(a) == multiset(b)
    ensures |a| == |b|
  {
    assert |multiset(a)| == |multiset(b)|;
  }

  function Filter<T(!new)>(keep: T -> bool, s: seq<T>): (r: seq<T>)
    ensures forall x :: x in r <==> x in s && keep(x)
  {
    if s == [] then []
    else
      assert s == [s[0]] + s[1..];
      if keep(s[0]) then [s[0]] + Filter(keep, s[1..]) else Filter(keep, s[1..])
  }

  lemma {:induction false} FilterCanonical<T(!new)>(key: T -> int, keep: T -> bool, s: seq<T>)
    requires Canonical(key, s)
    ensures Canonical(key, Filter(keep, s))
  {
    if |s| > 0 {
      assert s == [s[0]] + s[1..];
      FilterCanonical(key, keep, s[1..]);
      var rest := Filter(keep, s[1..]);
      forall x | x in rest ensures key(s[0]) < key(x) {
        var i :| 0 <= i < |s[1..]| && s[1..][i] == x;
        assert key(s[0]) < key(s[i + 1]);
      }
      ConsCanonical(key, s[0], rest);
    }
  }

  lemma ConsCanonical<T(!new)>(key: T -> int, x: T, s: seq<T>)
    requires Canonical(key, s) && forall y :: y in s ==> key(x) < key(y)
    ensures Canonical(key, [x] + s)
  {
    var r := [x] + s;
    forall i, j | 0 <= i < j < |r| ensures key(r[i]) < key(r[j]) {
      assert r[j] == s[j - 1];
      if i > 0 { assert key(s[i - 1]) < key(s[j - 1]); }
    }
  }
}
