/** Why a flood fill with an explicit stack marks exactly one group and finds exactly its liberties. */
module GoFill {
  import opened Finite
  import opened GoBoard

  function Min(a: nat, b: nat): nat {
    if a < b then a else b
  }

  /** A fill from `p` under way: every marked cell belongs to the group; it is done, or still on the stack, or the one
      (`now`) whose first `d` neighbours have been seen. Done cells have all their neighbours of the group marked and
      all their open neighbours found. */
  ghost predicate Filling(w: nat, b: Board, p: int, marked: set<int>, done: set<int>, pending: seq<int>, found: set<int>, now: int, d: nat)
    requires 0 <= p < |b|
  {
    && p in marked && marked <= Group(w, b, p) && done <= marked && now !in done
    && Distinct(pending) && now !in pending && (forall x <- pending :: x in marked && x !in done)
    && (forall x <- marked :: x in done || x in pending || x == now)
    && (forall x, y :: x in done && 0 <= y < |b| && Adjacent(w, x, y) && b[y] == b[p] ==> y in marked)
    && (forall x, y :: x in done && 0 <= y < |b| && Adjacent(w, x, y) && b[y] == OPEN ==> y in found)
    && found <= Liberties(w, b, Group(w, b, p))
    && (forall e {:trigger Neighbor(w, now, e)} :: 0 <= e < d && now in marked && 0 <= Neighbor(w, now, e) < |b| ==>
                  && (b[Neighbor(w, now, e)] == b[p] ==> Neighbor(w, now, e) in marked)
                  && (b[Neighbor(w, now, e)] == OPEN ==> Neighbor(w, now, e) in found))
  }

  lemma FillStarts(w: nat, b: Board, p: int)
    requires 0 <= p < |b|
    ensures Filling(w, b, p, {p}, {}, [p], {}, -1, 0)
  {
    GroupIsClosed(w, b, p);
  }

  /** The same, when the liberties are of no interest and count as found from the start. */
  lemma FillStartsAll(w: nat, b: Board, p: int)
    requires 0 <= p < |b|
    ensures Filling(w, b, p, {p}, {}, [p], Liberties(w, b, Group(w, b, p)), -1, 0)
  {
    GroupIsClosed(w, b, p);
  }

  lemma OpenIsLiberty(w: nat, b: Board, p: int, marked: set<int>, done: set<int>, pending: seq<int>, found: set<int>, now: int, d: nat, n: int)
    requires 0 <= p < |b| && Filling(w, b, p, marked, done, pending, found, now, d) && d < 4
    requires now in marked && n == Neighbor(w, now, d) && 0 <= n < |b| && b[n] == OPEN
    ensures n in Liberties(w, b, Group(w, b, p))
  {
    assert Adjacent(w, now, n);
    assert Touches(w, Group(w, b, p), n);
  }

  lemma NeighborsAre(w: nat, x: int, y: int)
    requires Adjacent(w, x, y)
    ensures y == Neighbor(w, x, 0) || y == Neighbor(w, x, 1) || y == Neighbor(w, x, 2) || y == Neighbor(w, x, 3)
  {
  }

  /** All four neighbours of `now` have been seen. */
  lemma CellDone(w: nat, b: Board, p: int, marked: set<int>, done: set<int>, pending: seq<int>, found: set<int>, now: int)
    requires 0 <= p < |b| && now in marked && now >= 0 && Filling(w, b, p, marked, done, pending, found, now, 4)
    ensures Filling(w, b, p, marked, done + {now}, pending, found, -1, 0)
  {
    GroupIsClosed(w, b, p);
    forall x, y | x in done + {now} && 0 <= y < |b| && Adjacent(w, x, y)
      ensures b[y] == b[p] ==> y in marked
      ensures b[y] == OPEN ==> y in found
    {
      if x == now { NeighborsAre(w, x, y); }
    }
  }

  /** Nothing is pending: the fill marked exactly the group and found exactly its liberties. */
  lemma Filled(w: nat, b: Board, p: int, marked: set<int>, done: set<int>, found: set<int>)
    requires 0 <= p < |b| && Filling(w, b, p, marked, done, [], found, -1, 0)
    ensures marked == done == Group(w, b, p)
    ensures b[p] != OPEN ==> found == Liberties(w, b, Group(w, b, p))
  {
    forall x | x in marked ensures x in done { assert x >= 0; }
    assert Closed(w, b, marked);
    GroupIsLeast(w, b, p, marked);
  }

  /** A new neighbour of the group goes on the stack. */
  lemma CellMarked(w: nat, b: Board, p: int, marked: set<int>, done: set<int>, pending: seq<int>, found: set<int>, now: int, d: nat, n: int)
    requires 0 <= p < |b| && Filling(w, b, p, marked, done, pending, found, now, d) && d < 4
    requires now in marked && n == Neighbor(w, now, d) && 0 <= n < |b| && b[n] == b[p] && n !in marked
    requires b[n] == OPEN ==> n in found
    ensures Filling(w, b, p, marked + {n}, done, pending + [n], found, now, d + 1)
  {
    GroupIsClosed(w, b, p);
    assert Adjacent(w, now, n);
    forall x | x in pending + [n] ensures x in marked + {n} && x !in done {}
    assert forall x :: x in pending ==> x in pending + [n];
    assert (pending + [n])[|pending|] == n;
  }

  lemma CellSeen(w: nat, b: Board, p: int, marked: set<int>, done: set<int>, pending: seq<int>, found: set<int>, now: int, d: nat, n: int)
    requires 0 <= p < |b| && Filling(w, b, p, marked, done, pending, found, now, d) && d < 4
    requires now in marked && n == Neighbor(w, now, d) && 0 <= n < |b|
    requires b[n] == b[p] ==> n in marked
    requires b[n] == OPEN ==> n in found
    ensures Filling(w, b, p, marked, done, pending, found, now, d + 1)
  {
  }

  lemma LibertyFound(w: nat, b: Board, p: int, marked: set<int>, done: set<int>, pending: seq<int>, found: set<int>, now: int, d: nat, n: int)
    requires 0 <= p < |b| && Filling(w, b, p, marked, done, pending, found, now, d) && d < 4
    requires now in marked && n == Neighbor(w, now, d) && 0 <= n < |b| && b[n] == OPEN
    ensures Filling(w, b, p, marked, done, pending, found + {n}, now, d)
  {
    assert Adjacent(w, now, n);
    assert Touches(w, Group(w, b, p), n);
  }

  lemma {:induction false} CellsCount(b: Board)
    ensures |Cells(b)| == |b|
  {
    if b != [] {
      var c := b[..|b| - 1];
      CellsCount(c);
      assert Cells(b) == Cells(c) + {|c|};
    } else {
      assert Cells(b) == {};
    }
  }

  /** There is room on the stack for one more cell. */
  lemma RoomForOne(w: nat, b: Board, p: int, marked: set<int>, done: set<int>, pending: seq<int>, found: set<int>, now: int, d: nat, n: int)
    requires 0 <= p < |b| && Filling(w, b, p, marked, done, pending, found, now, d) && n !in marked && 0 <= n < |b|
    ensures |pending| < |b|
  {
    forall i | 0 <= i < |pending| ensures pending[i] in marked {
      var x := pending[i];
      assert x in pending;
    }
    DistinctFit(pending, marked);
    CellsCount(b);
    SubsetSize(marked + {n}, Cells(b));
  }

  lemma NeighborExists(w: nat, b: Board, q: int, d: nat)
    requires Framed(w, b) && 0 <= q < |b| && b[q] != WALL && d < 4
    ensures 0 <= Neighbor(w, q, d) < |b|
  {
  }

  /** The top of the stack becomes the cell under work. */
  lemma Popped(w: nat, b: Board, p: int, marked: set<int>, done: set<int>, pending: seq<int>, found: set<int>)
    requires 0 <= p < |b| && pending != [] && Filling(w, b, p, marked, done, pending, found, -1, 0)
    ensures var q := pending[|pending| - 1];
            q in marked && 0 <= q < |b| && b[q] == b[p] && q !in done
            && Filling(w, b, p, marked, done, pending[..|pending| - 1], found, q, 0)
  {
    var q := pending[|pending| - 1];
    var rest := pending[..|pending| - 1];
    assert forall x <- rest :: x in pending && x != q;
    forall x | x in marked ensures x in done || x in rest || x == q {
      assert x != -1;
    }
  }

  lemma DoneAreMarked(w: nat, b: Board, p: int, marked: set<int>, done: set<int>, pending: seq<int>, found: set<int>, now: int, d: nat)
    requires 0 <= p < |b| && Filling(w, b, p, marked, done, pending, found, now, d)
    ensures done <= marked
  {
  }

  /** An open neighbour of an open region's cell belongs to the region. */
  lemma InRegion(w: nat, b: Board, p: int, marked: set<int>, done: set<int>, pending: seq<int>, found: set<int>, now: int, d: nat, n: int)
    requires 0 <= p < |b| && b[p] == OPEN && Filling(w, b, p, marked, done, pending, found, now, d) && d < 4
    requires found == Liberties(w, b, Group(w, b, p)) && now in marked && n == Neighbor(w, now, d) && 0 <= n < |b|
    ensures now in Group(w, b, p)
    ensures b[n] == OPEN ==> n in Group(w, b, p) && n in found
  {
    GroupIsClosed(w, b, p);
    assert Adjacent(w, now, n);
    if b[n] == OPEN { OpenIsLiberty(w, b, p, marked, done, pending, found, now, d, n); }
  }

  lemma FoundAreLiberties(w: nat, b: Board, p: int, marked: set<int>, done: set<int>, pending: seq<int>, found: set<int>, now: int, d: nat)
    requires 0 <= p < |b| && Filling(w, b, p, marked, done, pending, found, now, d)
    ensures |found| <= |Liberties(w, b, Group(w, b, p))|
  {
    SubsetSize(found, Liberties(w, b, Group(w, b, p)));
  }

  lemma MoreDone(w: nat, b: Board, p: int, marked: set<int>, done: set<int>, pending: seq<int>, found: set<int>, q: int)
    requires 0 <= p < |b| && Filling(w, b, p, marked, done, pending, found, q, 4) && q in marked
    ensures |done| < |done + {q}| <= |Group(w, b, p)|
  {
    SubsetSize(done + {q}, Group(w, b, p));
  }
}
