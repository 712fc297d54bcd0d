/** Small shared vocabulary: optional values, and sorting and filtering with their laws. */
module Prelude {

  datatype Option<+T> = None | Some(value: T)

  function Max(a: nat, b: nat): nat { if a < b then b else a }

  /** `before` never holds of an element and itself, and chains. */
  ghost predicate StrictOrder<T(!new)>(before: (T, T) -> bool) {
    && (forall a :: !before(a, a))
    && (forall a, b, c :: before(a, b) && before(b, c) ==> before(a, c))
  }

  ghost predicate Comparable<T>(s: seq<T>, before: (T, T) -> bool) {
    forall i, j :: 0 <= i < j < |s| ==> before(s[i], s[j]) || before(s[j], s[i])
  }

  ghost predicate Ordered<T>(s: seq<T>, before: (T, T) -> bool) {
    forall i, j :: 0 <= i < j < |s| ==> before(s[i], s[j])
  }

  function Insert<T>(x: T, s: seq<T>, before: (T, T) -> bool): seq<T> {
    if s == [] || before(x, s[0]) then [x] + s else [s[0]] + Insert(x, s[1..], before)
  }

  /** The result of the standard library's comparison sort. */
  function SortBy<T>(s: seq<T>, before: (T, T) -> bool): seq<T> {
    if s == [] then [] else Insert(s[0], SortBy(s[1..], before), before)
  }

  lemma Split<T>(s: seq<T>)
    requires s != []
    ensures multiset(s) == multiset{s[0]} + multiset(s[1..])
    ensures forall x :: x in s <==> x == s[0] || x in s[1..]
  {
    assert s == [s[0]] + s[1..];
  }

  lemma Rest<T>(s: seq<T>)
    requires s != []
    ensures multiset(s[1..]) == multiset(s) - multiset{s[0]}
  {
    Split(s);
  }

  lemma OrderedTail<T>(s: seq<T>, before: (T, T) -> bool)
    requires s != [] && Ordered(s, before)
    ensures Ordered(s[1..], before)
    ensures forall x :: x in s[1..] ==> before(s[0], x)
  {
  }

  lemma OrderedCons<T>(x: T, s: seq<T>, before: (T, T) -> bool)
    requires Ordered(s, before) && forall y :: y in s ==> before(x, y)
    ensures Ordered([x] + s, before)
  {
  }

  lemma {:induction false} InsertPermutes<T>(x: T, s: seq<T>, before: (T, T) -> bool)
    ensures multiset(Insert(x, s, before)) == multiset{x} + multiset(s)
    ensures forall y :: y in Insert(x, s, before) <==> y == x || y in s
  {
    if s == [] || before(x, s[0]) {
      Split([x] + s);
      assert ([x] + s)[1..] == s;
    } else {
      InsertPermutes(x, s[1..], before);
      Split(s);
      Split(Insert(x, s, before));
      assert Insert(x, s, before)[1..] == Insert(x, s[1..], before);
    }
  }

  lemma Follow<T(!new)>(x: T, y: T, z: T, before: (T, T) -> bool)
    requires StrictOrder(before) && before(x, y) && before(y, z)
    ensures before(x, z) && x != y
  {
  }

  lemma {:induction false} InsertOrders<T(!new)>(x: T, s: seq<T>, before: (T, T) -> bool)
    requires StrictOrder(before) && Ordered(s, before)
    requires forall y :: y in s ==> before(x, y) || before(y, x)
    ensures Ordered(Insert(x, s, before), before)
  {
    hide StrictOrder, Ordered;
    if s == [] {
      OrderedCons(x, s, before);
    } else if before(x, s[0]) {
      OrderedTail(s, before);
      Split(s);
      forall y | y in s ensures before(x, y) {
        if y != s[0] { Follow(x, s[0], y, before); }
      }
      OrderedCons(x, s, before);
    } else {
      OrderedTail(s, before);
      InsertOrders(x, s[1..], before);
      InsertPermutes(x, s[1..], before);
      OrderedCons(s[0], Insert(x, s[1..], before), before);
    }
  }

  /** Sorting pairwise comparable elements yields an ordered permutation. */
  lemma {:induction false} SortByIsSorted<T(!new)>(s: seq<T>, before: (T, T) -> bool)
    requires StrictOrder(before) && Comparable(s, before)
    ensures Ordered(SortBy(s, before), before)
    ensures multiset(SortBy(s, before)) == multiset(s)
    ensures |SortBy(s, before)| == |s|
    ensures forall x :: x in SortBy(s, before) <==> x in s
  {
    hide StrictOrder, Ordered, Insert;
    if s == [] {
      OrderedNothing(before);
    } else {
      ComparableTail(s, before);
      SortByIsSorted(s[1..], before);
      var rest := SortBy(s[1..], before);
      InsertOrders(s[0], rest, before);
      InsertPermutes(s[0], rest, before);
      Split(s);
    }
    SameSize(SortBy(s, before), s);
  }

  lemma OrderedNothing<T>(before: (T, T) -> bool)
    ensures Ordered([], before)
  {
  }

  lemma ComparableTail<T>(s: seq<T>, before: (T, T) -> bool)
    requires s != [] && Comparable(s, before)
    ensures Comparable(s[1..], before)
    ensures forall x :: x in s[1..] ==> before(s[0], x) || before(x, s[0])
  {
  }

  lemma SameSize<T>(s: seq<T>, t: seq<T>)
    requires multiset(s) == multiset(t)
    ensures |s| == |t|
  {
    assert |multiset(s)| == |multiset(t)|;
  }

  lemma HeadsAgree<T(!new)>(s: seq<T>, t: seq<T>, before: (T, T) -> bool)
    requires StrictOrder(before) && Ordered(s, before) && Ordered(t, before)
    requires s != [] && s[0] in t && t != [] && t[0] in s
    ensures s[0] == t[0]
  {
    hide StrictOrder, Ordered;
    OrderedTail(s, before);
    OrderedTail(t, before);
    Split(s);
    Split(t);
    if s[0] != t[0] { Follow(s[0], t[0], s[0], before); NotBefore(s[0], before); }
  }

  lemma NotBefore<T(!new)>(x: T, before: (T, T) -> bool)
    requires StrictOrder(before)
    ensures !before(x, x)
  {
  }

  /** There is only one way to order a given collection, whatever order it was read in. */
  lemma {:induction false} OrderIsUnique<T(!new)>(s: seq<T>, t: seq<T>, before: (T, T) -> bool)
    requires StrictOrder(before) && Ordered(s, before) && Ordered(t, before)
    requires multiset(s) == multiset(t)
    ensures s == t
  {
    hide StrictOrder, Ordered;
    SameSize(s, t);
    if s != [] {
      assert s[0] in multiset(t) && t[0] in multiset(s);
      HeadsAgree(s, t, before);
      OrderedTail(s, before);
      OrderedTail(t, before);
      Rest(s);
      Rest(t);
      OrderIsUnique(s[1..], t[1..], before);
      assert s == [s[0]] + s[1..] && t == [t[0]] + t[1..];
    }
  }

  /** A symmetric relation between any two places of a sequence survives sorting it. */
  lemma {:induction false} SortKeepsPairwise<T(!new)>(s: seq<T>, before: (T, T) -> bool, apart: (T, T) -> bool)
    requires Ordered(s, apart) && forall a, b :: apart(a, b) ==> apart(b, a)
    ensures Ordered(SortBy(s, before), apart)
    ensures forall x :: x in SortBy(s, before) <==> x in s
  {
    if s != [] {
      SortKeepsPairwise(s[1..], before, apart);
      InsertKeepsPairwise(s[0], SortBy(s[1..], before), before, apart);
    }
  }

  lemma {:induction false} InsertKeepsPairwise<T(!new)>(
    x: T, s: seq<T>, before: (T, T) -> bool, apart: (T, T) -> bool)
    requires Ordered(s, apart) && forall a, b :: apart(a, b) ==> apart(b, a)
    requires forall y :: y in s ==> apart(x, y)
    ensures Ordered(Insert(x, s, before), apart)
    ensures forall y :: y in Insert(x, s, before) <==> y == x || y in s
  {
    if s != [] && !before(x, s[0]) {
      InsertKeepsPairwise(x, s[1..], before, apart);
      assert s == [s[0]] + s[1..];
      var rest := Insert(x, s[1..], before);
      forall j | 0 <= j < |rest| ensures apart(s[0], rest[j]) {
        assert rest[j] == x || rest[j] in s[1..];
      }
    }
  }

  function Filter<T(!new)>(s: seq<T>, keep: T -> bool): (r: seq<T>)
    ensures forall x :: x in r <==> x in s && keep(x)
    ensures |r| <= |s|
  {
    if s == [] then [] else
      assert s == [s[0]] + s[1..];
      (if keep(s[0]) then [s[0]] else []) + Filter(s[1..], keep)
  }

  /** Filtering keeps every relation between earlier and later places. */
  lemma {:induction false} FilterKeepsOrder<T(!new)>(s: seq<T>, keep: T -> bool, before: (T, T) -> bool)
    requires Ordered(s, before)
    ensures Ordered(Filter(s, keep), before)
  {
    if s != [] {
      FilterKeepsOrder(s[1..], keep, before);
      var rest := Filter(s[1..], keep);
      forall j | 0 <= j < |rest| ensures before(s[0], rest[j]) {
        assert rest[j] in s[1..];
      }
    }
  }

  lemma FilterNothing<T(!new)>(keep: T -> bool)
    ensures Filter([], keep) == []
  {
  }

  lemma FilterHead<T(!new)>(s: seq<T>, keep: T -> bool)
    requires s != []
    ensures Filter(s, keep) == (if keep(s[0]) then [s[0]] else []) + Filter(s[1..], keep)
  {
  }

  lemma {:induction false} FilterSnoc<T(!new)>(s: seq<T>, x: T, keep: T -> bool)
    ensures Filter(s + [x], keep) == Filter(s, keep) + (if keep(x) then [x] else [])
  {
    hide Filter;
    var last := if keep(x) then [x] else [];
    FilterHead(s + [x], keep);
    if s == [] {
      FilterNothing(keep);
      assert (s + [x])[1..] == [];
    } else {
      assert (s + [x])[1..] == s[1..] + [x] && (s + [x])[0] == s[0];
      FilterSnoc(s[1..], x, keep);
      FilterHead(s, keep);
      Regroup(if keep(s[0]) then [s[0]] else [], Filter(s[1..], keep), last);
    }
  }

  lemma Regroup<T>(a: seq<T>, b: seq<T>, c: seq<T>)
    ensures a + (b + c) == (a + b) + c
  {
  }
}
