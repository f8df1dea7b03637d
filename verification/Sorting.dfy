/** Stable insertion by a total order, for the sorts the programs leave to their libraries. */
module Sorting {
  type Ordering<!T> = (T, T) -> bool

  ghost predicate TotalOrder<T(!new)>(before: Ordering<T>) {
    && (forall a, b :: before(a, b) || before(b, a))
    && (forall a, b, c :: before(a, b) && before(b, c) ==> before(a, c))
  }

  predicate Sorted<T>(before: Ordering<T>, s: seq<T>) {
    forall i, j :: 0 <= i < j < |s| ==> before(s[i], s[j])
  }

  function Insert<T>(before: Ordering<T>, e: T, s: seq<T>): seq<T> {
    if s == [] then [e]
    else if before(e, s[0]) then [e] + s
    else [s[0]] + Insert(before, e, s[1..])
  }

  function Sort<T>(before: Ordering<T>, s: seq<T>): seq<T> {
    if s == [] then [] else Insert(before, s[|s| - 1], Sort(before, s[..|s| - 1]))
  }

  lemma {:induction false} InsertSorts<T(!new)>(before: Ordering<T>, e: T, s: seq<T>)
    requires TotalOrder(before) && Sorted(before, s)
    ensures Sorted(before, Insert(before, e, s))
    ensures forall x :: x in Insert(before, e, s) <==> x == e || x in s
  {
    if s != [] {
      assert s == [s[0]] + s[1..];
      if !before(e, s[0]) {
        InsertSorts(before, e, s[1..]);
        var rest := Insert(before, e, s[1..]);
        forall i | 0 <= i < |rest| ensures before(s[0], rest[i]) {
          var x := rest[i];
          assert x in rest;
        }
      }
    }
  }

  lemma {:induction false} InsertKeeps<T>(before: Ordering<T>, e: T, s: seq<T>)
    ensures multiset(Insert(before, e, s)) == multiset{e} + multiset(s)
  {
    if s != [] {
      assert s == [s[0]] + s[1..];
      InsertKeeps(before, e, s[1..]);
    }
  }

  /** Nothing is lost or made up. */
  lemma {:induction false} SortKeeps<T>(before: Ordering<T>, s: seq<T>)
    ensures multiset(Sort(before, s)) == multiset(s)
  {
    if s != [] {
      var front, last := s[..|s| - 1], s[|s| - 1];
      SortKeeps(before, front);
      InsertKeeps(before, last, Sort(before, front));
      assert s == front + [last];
    }
  }

  /** The same elements, in order. */
  lemma {:induction false} SortSorts<T(!new)>(before: Ordering<T>, s: seq<T>)
    requires TotalOrder(before)
    ensures Sorted(before, Sort(before, s))
    ensures forall x :: x in Sort(before, s) <==> x in s
  {
    hide Insert;
    if s != [] {
      var front, last := s[..|s| - 1], s[|s| - 1];
      hide TotalOrder, Sorted;
      SortSorts(before, front);
      InsertSorts(before, last, Sort(before, front));
      assert s == front + [last];
    }
  }
}
