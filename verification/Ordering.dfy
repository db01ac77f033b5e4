/** Sorting by an ordering, and why a total order leaves only one sorted arrangement. */
module Ordering {

  /** Any two elements compare, and comparing is transitive. */
  ghost predicate Preorder<T(!new)>(leq: (T, T) -> bool) {
    (forall x, y :: leq(x, y) || leq(y, x))
    && forall x, y, z :: leq(x, y) && leq(y, z) ==> leq(x, z)
  }

  ghost predicate Sorted<T>(leq: (T, T) -> bool, s: seq<T>) {
    forall i, j :: 0 <= i < j < |s| ==> leq(s[i], s[j])
  }

  /** Elements that tie are the same element. */
  ghost predicate TiesEqual<T(!new)>(leq: (T, T) -> bool, s: seq<T>) {
    forall x, y :: x in s && y in s && leq(x, y) && leq(y, x) ==> x == y
  }

  /** Puts x behind everything it does not precede. */
  function Insert<T>(leq: (T, T) -> bool, s: seq<T>, x: T): seq<T> {
    if s == [] || leq(s[|s| - 1], x) then s + [x]
    else Insert(leq, s[..|s| - 1], x) + [s[|s| - 1]]
  }

  /** The stable sort. */
  function Sort<T>(leq: (T, T) -> bool, s: seq<T>): seq<T> {
    if s == [] then [] else Insert(leq, Sort(leq, s[..|s| - 1]), s[|s| - 1])
  }

  // Everything in s comes no later than y.
  ghost predicate Bounded<T(!new)>(leq: (T, T) -> bool, s: seq<T>, y: T) {
    forall x :: x in s ==> leq(x, y)
  }

  lemma SortedAppend<T(!new)>(leq: (T, T) -> bool, s: seq<T>, y: T)
    ensures Sorted(leq, s + [y]) <==> Sorted(leq, s) && Bounded(leq, s, y)
  {
    var r := s + [y];
    if Sorted(leq, r) {
      forall i, j | 0 <= i < j < |s| ensures leq(s[i], s[j]) {
        assert leq(r[i], r[j]);
      }
      forall x | x in s ensures leq(x, y) {
        var k :| 0 <= k < |s| && s[k] == x;
        assert leq(r[k], r[|s|]);
      }
    }
  }

  lemma SplitLast<T>(s: seq<T>)
    requires s != []
    ensures s == s[..|s| - 1] + [s[|s| - 1]] && multiset(s) == multiset(s[..|s| - 1]) + multiset{s[|s| - 1]}
  {
    assert s == s[..|s| - 1] + [s[|s| - 1]];
  }

  lemma {:induction false} InsertAdds<T>(leq: (T, T) -> bool, s: seq<T>, x: T)
    ensures multiset(Insert(leq, s, x)) == multiset(s) + multiset{x}
  {
    if s != [] && !leq(s[|s| - 1], x) {
      InsertAdds(leq, s[..|s| - 1], x);
      SplitLast(s);
    }
  }

  lemma {:induction false} InsertBounded<T(!new)>(leq: (T, T) -> bool, s: seq<T>, x: T, y: T)
    requires Bounded(leq, s, y) && leq(x, y)
    ensures Bounded(leq, Insert(leq, s, x), y)
  {
    InsertAdds(leq, s, x);
    var r := Insert(leq, s, x);
    forall z | z in r ensures leq(z, y) {
      assert z in multiset(r);
    }
  }

  lemma LastBounds<T(!new)>(leq: (T, T) -> bool, s: seq<T>, x: T)
    requires Preorder(leq) && s != [] && Sorted(leq, s) && leq(s[|s| - 1], x)
    ensures Bounded(leq, s, x)
  {
    forall y | y in s ensures leq(y, x) {
      Below(leq, s, y);
    }
  }

  lemma {:induction false} InsertSorts<T(!new)>(leq: (T, T) -> bool, s: seq<T>, x: T)
    requires Preorder(leq) && Sorted(leq, s)
    ensures Sorted(leq, Insert(leq, s, x))
  {
    if s == [] {
    } else if leq(s[|s| - 1], x) {
      LastBounds(leq, s, x);
      SortedAppend(leq, s, x);
    } else {
      var init, last := s[..|s| - 1], s[|s| - 1];
      assert leq(x, last);
      SplitLast(s);
      hide Preorder, Sorted, Bounded;
      SortedAppend(leq, init, last);
      InsertSorts(leq, init, x);
      InsertBounded(leq, init, x, last);
      SortedAppend(leq, Insert(leq, init, x), last);
    }
  }

  lemma {:induction false} SortKeeps<T>(leq: (T, T) -> bool, s: seq<T>)
    ensures multiset(Sort(leq, s)) == multiset(s) && |Sort(leq, s)| == |s|
  {
    if s != [] {
      SortKeeps(leq, s[..|s| - 1]);
      InsertAdds(leq, Sort(leq, s[..|s| - 1]), s[|s| - 1]);
      SplitLast(s);
    }
    assert |multiset(Sort(leq, s))| == |multiset(s)|;
  }

  lemma {:induction false} SortSorts<T(!new)>(leq: (T, T) -> bool, s: seq<T>)
    requires Preorder(leq)
    ensures Sorted(leq, Sort(leq, s)) && multiset(Sort(leq, s)) == multiset(s) && |Sort(leq, s)| == |s|
  {
    hide Preorder;
    SortKeeps(leq, s);
    if s != [] {
      SortSorts(leq, s[..|s| - 1]);
      InsertSorts(leq, Sort(leq, s[..|s| - 1]), s[|s| - 1]);
    }
  }

  // The elements of s that tie with x, in order.
  ghost function Ties<T>(leq: (T, T) -> bool, s: seq<T>, x: T): seq<T> {
    if s == [] then []
    else
      var y := s[|s| - 1];
      Ties(leq, s[..|s| - 1], x) + if leq(x, y) && leq(y, x) then [y] else []
  }

  lemma {:induction false} InsertIsStable<T(!new)>(leq: (T, T) -> bool, s: seq<T>, y: T, x: T)
    requires Preorder(leq)
    ensures Ties(leq, Insert(leq, s, y), x) == Ties(leq, s + [y], x)
  {
    assert (s + [y])[..|s|] == s;
    if s != [] && !leq(s[|s| - 1], y) {
      var init, last := s[..|s| - 1], s[|s| - 1];
      InsertIsStable(leq, init, y, x);
      var r := Insert(leq, init, y);
      assert (r + [last])[..|r|] == r && (init + [y])[..|init|] == init;
      assert leq(last, x) && leq(x, y) ==> leq(last, y);
    }
  }

  /** Elements that tie keep the order they came in. */
  lemma {:induction false} SortIsStable<T(!new)>(leq: (T, T) -> bool, s: seq<T>, x: T)
    requires Preorder(leq)
    ensures Ties(leq, Sort(leq, s), x) == Ties(leq, s, x)
  {
    if s != [] {
      var init, y := s[..|s| - 1], s[|s| - 1];
      SortIsStable(leq, init, x);
      InsertIsStable(leq, Sort(leq, init), y, x);
      assert (Sort(leq, init) + [y])[..|Sort(leq, init)|] == Sort(leq, init);
    }
  }

  lemma Below<T>(leq: (T, T) -> bool, s: seq<T>, y: T)
    requires Sorted(leq, s) && y in s
    ensures y == s[|s| - 1] || leq(y, s[|s| - 1])
  {
    var k :| 0 <= k < |s| && s[k] == y;
  }

  lemma SameLast<T(!new)>(leq: (T, T) -> bool, s: seq<T>, t: seq<T>)
    requires Sorted(leq, s) && Sorted(leq, t) && multiset(s) == multiset(t) && TiesEqual(leq, s) && s != []
    ensures |s| == |t| && s[|s| - 1] == t[|t| - 1]
  {
    hide Sorted;
    assert |multiset(s)| == |multiset(t)|;
    var x, y := s[|s| - 1], t[|t| - 1];
    assert x in multiset(t) && y in multiset(s);
    Below(leq, s, y);
    Below(leq, t, x);
  }

  /** When ties are equal, one collection has one sorted arrangement: any sorting algorithm gives it. */
  lemma {:induction false} SortedIsUnique<T(!new)>(leq: (T, T) -> bool, s: seq<T>, t: seq<T>)
    requires Sorted(leq, s) && Sorted(leq, t) && multiset(s) == multiset(t) && TiesEqual(leq, s)
    ensures s == t
  {
    hide Sorted, Bounded, TiesEqual;
    assert |multiset(s)| == |multiset(t)|;
    if s != [] {
      SameLast(leq, s, t);
      var x, s0, t0 := s[|s| - 1], s[..|s| - 1], t[..|t| - 1];
      SplitLast(s);
      SplitLast(t);
      SortedAppend(leq, s0, x);
      SortedAppend(leq, t0, x);
      assert multiset(s0) == multiset(s) - multiset{x} == multiset(t) - multiset{x} == multiset(t0);
      TiesEqualPrefix(leq, s);
      SortedIsUnique(leq, s0, t0);
    }
  }

  lemma TiesEqualPrefix<T(!new)>(leq: (T, T) -> bool, s: seq<T>)
    requires TiesEqual(leq, s) && s != []
    ensures TiesEqual(leq, s[..|s| - 1])
  {
    assert forall z :: z in s[..|s| - 1] ==> z in s;
  }

  lemma InsertSkips<T>(leq: (T, T) -> bool, s: seq<T>, x: T, j: nat)
    requires 0 < j <= |s| && !leq(s[j - 1], x)
    ensures Insert(leq, s[..j], x) + s[j..] == Insert(leq, s[..j - 1], x) + s[j - 1..]
  {
    assert s[..j][..j - 1] == s[..j - 1];
    assert [s[j - 1]] + s[j..] == s[j - 1..];
  }

  // The array during an insertion: s with a hole at j, and after it the elements not yet sorted.
  function Gap<T>(s: seq<T>, hole: T, j: nat, rest: seq<T>): seq<T>
    requires j <= |s|
  {
    s[..j] + [hole] + s[j..] + rest
  }

  lemma GapMoves<T>(s: seq<T>, hole: T, j: nat, rest: seq<T>)
    requires 0 < j <= |s|
    ensures Gap(s, hole, j, rest)[j - 1] == s[j - 1]
    ensures Gap(s, hole, j, rest)[j := s[j - 1]] == Gap(s, s[j - 1], j - 1, rest)
  {
  }

  lemma GapFills<T>(leq: (T, T) -> bool, s: seq<T>, hole: T, x: T, j: nat, rest: seq<T>)
    requires j <= |s| && (j == 0 || leq(Gap(s, hole, j, rest)[j - 1], x))
    ensures Gap(s, hole, j, rest)[j := x] == Insert(leq, s[..j], x) + s[j..] + rest
  {
    assert j > 0 ==> s[..j][j - 1] == Gap(s, hole, j, rest)[j - 1];
    assert Gap(s, hole, j, rest)[j := x] == s[..j] + [x] + s[j..] + rest;
  }

  // Moves a[i] back to its place in the sorted a[..i].
  method InsertInPlace<T>(leq: (T, T) -> bool, a: array<T>, i: nat)
    requires i < a.Length
    modifies a
    ensures a[..] == Insert(leq, old(a[..i]), old(a[i])) + old(a[i + 1..])
  {
    ghost var s, rest := a[..i], a[i + 1..];
    var x := a[i];
    var j := i;
    ghost var hole := x;
    assert a[..] == Gap(s, x, i, rest) && s[..i] == s;
    while j > 0 && !leq(a[j - 1], x)
      invariant 0 <= j <= i
      invariant a[..] == Gap(s, hole, j, rest)
      invariant Insert(leq, s, x) == Insert(leq, s[..j], x) + s[j..]
    {
      hide Gap, Insert;
      GapMoves(s, hole, j, rest);
      assert a[j - 1] == a[..][j - 1];
      InsertSkips(leq, s, x, j);
      hole := a[j - 1];
      ghost var before := a[..];
      a[j] := a[j - 1];
      assert a[..] == before[j := hole];
      j := j - 1;
    }
    hide Gap, Insert;
    assert j > 0 ==> a[j - 1] == a[..][j - 1];
    GapFills(leq, s, hole, x, j, rest);
    ghost var before := a[..];
    a[j] := x;
    assert a[..] == before[j := x];
  }

  /** The in-place sort the services call on their slices. */
  method SortInPlace<T>(leq: (T, T) -> bool, a: array<T>)
    modifies a
    ensures a[..] == Sort(leq, old(a[..]))
  {
    ghost var was := a[..];
    for i := 0 to a.Length
      invariant a[..i] == Sort(leq, was[..i]) && a[i..] == was[i..]
    {
      assert was[..i + 1][..i] == was[..i] && a[i] == a[i..][0] == was[i] && a[i + 1..] == a[i..][1..] == was[i + 1..];
      InsertInPlace(leq, a, i);
      InsertLength(leq, Sort(leq, was[..i]), was[i]);
      assert a[..][..i + 1] == a[..i + 1] && a[..][i + 1..] == a[i + 1..];
    }
    assert a[..a.Length] == a[..] && was[..a.Length] == was;
  }

  lemma InsertLength<T>(leq: (T, T) -> bool, s: seq<T>, x: T)
    ensures |Insert(leq, s, x)| == |s| + 1
  {
  }

  // ----------------------------------------------------------------- strings

  /** Go's order on strings, which is the order of their code points. */
  predicate StringLeq(a: string, b: string) {
    a == "" || (b != "" && (a[0] < b[0] || (a[0] == b[0] && StringLeq(a[1..], b[1..]))))
  }

  /** The first place where two strings differ decides, and a prefix comes first. */
  lemma {:induction false} FirstDifferenceDecides(a: string, b: string, k: nat)
    requires k <= |a| && k <= |b| && a[..k] == b[..k]
    ensures k < |a| && k < |b| && a[k] < b[k] ==> StringLeq(a, b) && !StringLeq(b, a)
    ensures k == |a| ==> StringLeq(a, b)
  {
    if k > 0 {
      assert a[0] == a[..k][0] == b[..k][0] == b[0];
      assert a[1..][..k - 1] == a[..k][1..] == b[..k][1..] == b[1..][..k - 1];
      FirstDifferenceDecides(a[1..], b[1..], k - 1);
    }
  }

  lemma StringTotal(a: string, b: string)
    ensures StringLeq(a, b) || StringLeq(b, a)
    ensures StringLeq(a, b) && StringLeq(b, a) ==> a == b
  {
    if a != "" && b != "" && a[0] == b[0] {
      StringTotal(a[1..], b[1..]);
      assert a[1..] == b[1..] ==> a == [a[0]] + a[1..] == [b[0]] + b[1..] == b;
    }
  }

  lemma {:induction false} StringTransitive(a: string, b: string, c: string)
    requires StringLeq(a, b) && StringLeq(b, c)
    ensures StringLeq(a, c)
  {
    if a != "" && b != "" && c != "" && a[0] == b[0] == c[0] {
      StringTransitive(a[1..], b[1..], c[1..]);
    }
  }
}
