/** Which groups a stone takes off: only dead ones, and all of them exactly if no two dead groups touch. */
module GoCapture {
  import opened GoBoard
  import opened GoRules

  /** The group in direction `e`, when one lies there. */
  ghost function GroupAt(w: nat, b: Board, m: int, e: nat): set<int> {
    var n := Neighbor(w, m, e);
    if 0 <= n < |b| then Group(w, b, n) else {}
  }

  ghost predicate Touching(w: nat, a: set<int>, b: set<int>) {
    exists x <- a, y <- b :: Adjacent(w, x, y)
  }

  ghost predicate InDead(w: nat, b: Board, m: int, c: int, d: nat, i: int) {
    exists e: nat :: e < d && DeadAt(w, b, m, c, e) && i in GroupAt(w, b, m, e)
  }

  /** `y` is `b` without some whole groups; those that stay lose no liberty. */
  ghost predicate Shrunk(w: nat, b: Board, y: Board) {
    && |y| == |b|
    && (forall i :: 0 <= i < |b| ==> y[i] == b[i] || y[i] == OPEN)
    && (forall p :: 0 <= p < |b| && y[p] > 0 ==> Same(w, b, y, p))
  }

  ghost predicate Same(w: nat, b: Board, y: Board, p: int)
    requires 0 <= p < |b| == |y|
  {
    Group(w, y, p) == Group(w, b, p) && Liberties(w, b, Group(w, b, p)) <= Liberties(w, y, Group(w, y, p))
  }

  predicate OpenAt(w: nat, y: Board, m: int, e: nat) {
    0 <= Neighbor(w, m, e) < |y| && y[Neighbor(w, m, e)] == OPEN
  }

  /** Of two dead groups that touch, at most one has been taken. */
  ghost predicate NotBoth(w: nat, b: Board, m: int, c: int, y: Board) {
    forall e: nat, f: nat :: e < 4 && f < 4 && DeadAt(w, b, m, c, e) && DeadAt(w, b, m, c, f)
                             && Touching(w, GroupAt(w, b, m, e), GroupAt(w, b, m, f)) && GroupAt(w, b, m, e) != GroupAt(w, b, m, f) ==>
                               !(OpenAt(w, y, m, e) && OpenAt(w, y, m, f))
  }

  ghost predicate CaughtSoFar(w: nat, b: Board, m: int, c: int, d: nat, y: Board) {
    && Shrunk(w, b, y)
    && (forall i :: 0 <= i < |b| && y[i] != b[i] ==> InDead(w, b, m, c, d, i))
    && (forall e: nat :: e < d ==> !DeadAt(w, y, m, c, e))
    && NotBoth(w, b, m, c, y)
  }

  lemma NothingYet(w: nat, b: Board, m: int, c: int)
    ensures CaughtSoFar(w, b, m, c, 0, b)
  {
    hide Group, Liberties, Alive;
  }

  /** A taken cell means its whole group was taken. */
  lemma WholeGroup(w: nat, b: Board, y: Board, p: int, q: int)
    requires Shrunk(w, b, y) && 0 <= p < |b| && b[p] > 0 && y[p] == OPEN && q in Group(w, b, p)
    ensures 0 <= q < |b| && y[q] == OPEN
  {
    hide Liberties;
    if y[q] != OPEN {
      assert Same(w, b, y, q);
      SameGroup(w, b, p, q);
      GroupIsClosed(w, b, p);
    }
  }

  lemma ShrinkMore(w: nat, b: Board, y: Board, n: int)
    requires Shrunk(w, b, y) && 0 <= n < |b| && y[n] > 0
    ensures Shrunk(w, b, Cleared(y, Group(w, y, n)))
  {
    hide Group, Liberties;
    var z := Cleared(y, Group(w, y, n));
    forall p | 0 <= p < |b| && z[p] > 0 ensures Same(w, b, z, p) {
      assert Same(w, b, y, p);
      ClearKeepsOthers(w, y, n, p);
    }
  }

  /** What is dead now was dead from the start. */
  lemma DeadFromStart(w: nat, b: Board, m: int, c: int, d: nat, y: Board)
    requires Shrunk(w, b, y) && DeadAt(w, y, m, c, d)
    ensures DeadAt(w, b, m, c, d) && GroupAt(w, b, m, d) == Group(w, y, Neighbor(w, m, d))
  {
    hide Group, Liberties;
    assert Same(w, b, y, Neighbor(w, m, d));
  }

  /** A group next to one already taken is alive. */
  lemma NextToTakenIsAlive(w: nat, b: Board, m: int, c: int, y: Board, d: nat, f: nat)
    requires Shrunk(w, b, y) && DeadAt(w, y, m, c, d) && DeadAt(w, b, m, c, f)
    requires Touching(w, GroupAt(w, b, m, d), GroupAt(w, b, m, f))
    ensures !OpenAt(w, y, m, f)
  {
    hide Group, Neighbor;
    var n, p := Neighbor(w, m, d), Neighbor(w, m, f);
    DeadFromStart(w, b, m, c, d, y);
    var x, l :| x in GroupAt(w, b, m, d) && l in GroupAt(w, b, m, f) && Adjacent(w, x, l);
    assert Touches(w, Group(w, y, n), l);
    assert l !in Liberties(w, y, Group(w, y, n));
    if OpenAt(w, y, m, f) { WholeGroup(w, b, y, p, l); }
  }

  lemma TouchingIsMutual(w: nat, a: set<int>, b: set<int>)
    requires Touching(w, a, b)
    ensures Touching(w, b, a)
  {
    var x, y :| x in a && y in b && Adjacent(w, x, y);
    assert Adjacent(w, y, x);
  }

  lemma OpenedBy(w: nat, b: Board, m: int, c: int, y: Board, d: nat, e: nat)
    requires Shrunk(w, b, y) && DeadAt(w, y, m, c, d) && DeadAt(w, b, m, c, e)
    requires OpenAt(w, Cleared(y, Group(w, y, Neighbor(w, m, d))), m, e) && !OpenAt(w, y, m, e)
    ensures GroupAt(w, b, m, e) == GroupAt(w, b, m, d)
  {
    hide Group;
    DeadFromStart(w, b, m, c, d, y);
    SameGroup(w, b, Neighbor(w, m, d), Neighbor(w, m, e));
  }

  lemma TakingKeepsNotBoth(w: nat, b: Board, m: int, c: int, d: nat, y: Board)
    requires Shrunk(w, b, y) && NotBoth(w, b, m, c, y) && DeadAt(w, y, m, c, d)
    ensures NotBoth(w, b, m, c, Cleared(y, Group(w, y, Neighbor(w, m, d))))
  {
    hide Group, Alive, Neighbor, Shrunk;
    var z := Cleared(y, Group(w, y, Neighbor(w, m, d)));
    forall e: nat, f: nat | e < 4 && f < 4 && DeadAt(w, b, m, c, e) && DeadAt(w, b, m, c, f)
                            && Touching(w, GroupAt(w, b, m, e), GroupAt(w, b, m, f)) && GroupAt(w, b, m, e) != GroupAt(w, b, m, f)
      ensures !(OpenAt(w, z, m, e) && OpenAt(w, z, m, f))
    {
      hide GroupAt, Touching;
      TouchingIsMutual(w, GroupAt(w, b, m, e), GroupAt(w, b, m, f));
      if OpenAt(w, z, m, e) && OpenAt(w, z, m, f) {
        if !OpenAt(w, y, m, e) { OpenedBy(w, b, m, c, y, d, e); }
        if !OpenAt(w, y, m, f) { OpenedBy(w, b, m, c, y, d, f); }
        if OpenAt(w, y, m, e) { NextToTakenIsAlive(w, b, m, c, y, d, e); } else { NextToTakenIsAlive(w, b, m, c, y, d, f); }
      }
    }
  }

  lemma TakingKeeps(w: nat, b: Board, m: int, c: int, d: nat, y: Board)
    requires CaughtSoFar(w, b, m, c, d, y) && DeadAt(w, y, m, c, d)
    ensures CaughtSoFar(w, b, m, c, d + 1, Cleared(y, Group(w, y, Neighbor(w, m, d))))
  {
    hide Group, Alive, Neighbor, Same, NotBoth;
    var n := Neighbor(w, m, d);
    var z := Cleared(y, Group(w, y, n));
    ShrinkMore(w, b, y, n);
    TakingKeepsNotBoth(w, b, m, c, d, y);
    DeadFromStart(w, b, m, c, d, y);
    forall i | 0 <= i < |b| && z[i] != b[i] ensures InDead(w, b, m, c, d + 1, i) {
      if y[i] != b[i] {
        var e: nat :| e < d && DeadAt(w, b, m, c, e) && i in GroupAt(w, b, m, e);
        assert e < d + 1;
      } else {
        assert i in GroupAt(w, b, m, d);
      }
    }
    GroupIsClosed(w, y, n);
    forall e: nat | e < d && 0 <= Neighbor(w, m, e) < |z| ensures !DeadAt(w, z, m, c, e) {
      StaysAlive(w, y, n, Neighbor(w, m, e));
      assert !DeadAt(w, y, m, c, e);
    }
  }

  lemma StaysAlive(w: nat, y: Board, n: int, p: int)
    requires 0 <= n < |y| && 0 <= p < |y|
    ensures var z := Cleared(y, Group(w, y, n)); z[p] > 0 ==> z[p] == y[p] && (Alive(w, y, p) ==> Alive(w, z, p))
  {
    hide Group, Liberties;
    if p !in Group(w, y, n) && y[p] > 0 {
      ClearKeepsOthers(w, y, n, p);
    }
  }

  lemma {:induction false} CapturesCatch(w: nat, b: Board, m: int, c: int, d: nat, x: Caught)
    requires x.cells == b && d <= 4
    ensures CaughtSoFar(w, b, m, c, d, Captures(w, m, c, d, x).cells)
  {
    hide CaughtSoFar, DeadAt;
    if d == 0 {
      NothingYet(w, b, m, c);
    } else {
      CapturesCatch(w, b, m, c, d - 1, x);
      var y := Captures(w, m, c, d - 1, x).cells;
      if DeadAt(w, y, m, c, d - 1) {
        TakingKeeps(w, b, m, c, d - 1, y);
      } else {
        LivingStays(w, b, m, c, d - 1, y);
      }
    }
  }

  lemma LivingStays(w: nat, b: Board, m: int, c: int, d: nat, y: Board)
    requires CaughtSoFar(w, b, m, c, d, y) && !DeadAt(w, y, m, c, d)
    ensures CaughtSoFar(w, b, m, c, d + 1, y)
  {
    hide Same, DeadAt, NotBoth, GroupAt;
    forall i | 0 <= i < |b| && y[i] != b[i] ensures InDead(w, b, m, c, d + 1, i) {
      var e: nat :| e < d && DeadAt(w, b, m, c, e) && i in GroupAt(w, b, m, e);
      assert e < d + 1;
    }
  }

  /** Every opponent's group left dead by the stone comes off. */
  ghost predicate AllTaken(w: nat, b: Board, m: int, c: int, y: Board) {
    forall e: nat :: e < 4 && DeadAt(w, b, m, c, e) ==> OpenAt(w, y, m, e)
  }

  /** No two of the groups left dead by the stone touch each other. */
  ghost predicate NoneTouch(w: nat, b: Board, m: int, c: int) {
    forall e: nat, f: nat :: e < 4 && f < 4 && DeadAt(w, b, m, c, e) && DeadAt(w, b, m, c, f)
                             && GroupAt(w, b, m, e) != GroupAt(w, b, m, f) ==>
                               !Touching(w, GroupAt(w, b, m, e), GroupAt(w, b, m, f))
  }

  /** A dead group that stays was saved by a dead group next to it that went first. */
  lemma SavedByNeighbor(w: nat, b: Board, m: int, c: int, y: Board, e: nat) returns (f: nat)
    requires CaughtSoFar(w, b, m, c, 4, y) && e < 4 && DeadAt(w, b, m, c, e) && !OpenAt(w, y, m, e)
    ensures f < 4 && DeadAt(w, b, m, c, f) && GroupAt(w, b, m, f) != GroupAt(w, b, m, e)
    ensures Touching(w, GroupAt(w, b, m, e), GroupAt(w, b, m, f))
  {
    hide Group, Neighbor, NotBoth;
    var n := Neighbor(w, m, e);
    assert !DeadAt(w, y, m, c, e);
    assert Same(w, b, y, n);
    var l :| l in Liberties(w, y, Group(w, y, n));
    var x :| x in Group(w, b, n) && Adjacent(w, x, l);
    assert Touches(w, Group(w, b, n), l) && l !in Liberties(w, b, Group(w, b, n));
    f :| f < 4 && DeadAt(w, b, m, c, f) && l in GroupAt(w, b, m, f);
    OpenIsNotInside(w, y, n, l);
  }

  lemma OpenIsNotInside(w: nat, y: Board, n: int, l: int)
    requires 0 <= n < |y| && 0 <= l < |y| && y[n] != y[l]
    ensures l !in Group(w, y, n)
  {
  }

  /** All dead groups come off if and only if no two of them touch; with three or more seats the order of the four
      directions can save one. */
  lemma AllTakenIff(w: nat, m: int, c: int, x: Caught)
    ensures AllTaken(w, x.cells, m, c, Captures(w, m, c, 4, x).cells) <==> NoneTouch(w, x.cells, m, c)
  {
    hide DeadAt, Captures, Touching, GroupAt, Shrunk, InDead;
    var b, y := x.cells, Captures(w, m, c, 4, x).cells;
    CapturesCatch(w, b, m, c, 4, x);
    if NoneTouch(w, b, m, c) {
      forall e: nat | e < 4 && DeadAt(w, b, m, c, e) ensures OpenAt(w, y, m, e) {
        if !OpenAt(w, y, m, e) {
          var f := SavedByNeighbor(w, b, m, c, y, e);
        }
      }
    }
  }

  /** Exactly the cells of dead groups come off when no two of them touch, so the order is then of no account. */
  lemma ExactlyTheDead(w: nat, m: int, c: int, x: Caught)
    requires NoneTouch(w, x.cells, m, c)
    ensures var b := x.cells;
            Captures(w, m, c, 4, x).cells == Cleared(b, set i | 0 <= i < |b| && InDead(w, b, m, c, 4, i))
  {
    hide Captures, NotBoth, Group, Alive, NoneTouch;
    var b, y := x.cells, Captures(w, m, c, 4, x).cells;
    CapturesCatch(w, b, m, c, 4, x);
    AllTakenIff(w, m, c, x);
    forall i | 0 <= i < |b| && InDead(w, b, m, c, 4, i) ensures y[i] == OPEN {
      var e: nat :| e < 4 && DeadAt(w, b, m, c, e) && i in GroupAt(w, b, m, e);
      assert OpenAt(w, y, m, e);
      WholeGroup(w, b, y, Neighbor(w, m, e), i);
    }
  }

  /** Groups of one colour never touch without being one, so a single opponent loses all its dead groups. */
  lemma OneOpponentNoneTouch(w: nat, b: Board, m: int, c: int, v: int)
    requires forall e: nat :: e < 4 && DeadAt(w, b, m, c, e) ==> b[Neighbor(w, m, e)] == v
    ensures NoneTouch(w, b, m, c)
  {
    hide Alive, Neighbor;
    forall e: nat, f: nat | e < 4 && f < 4 && DeadAt(w, b, m, c, e) && DeadAt(w, b, m, c, f)
                            && Touching(w, GroupAt(w, b, m, e), GroupAt(w, b, m, f))
      ensures GroupAt(w, b, m, e) == GroupAt(w, b, m, f)
    {
      var x, y :| x in GroupAt(w, b, m, e) && y in GroupAt(w, b, m, f) && Adjacent(w, x, y);
      OneGroup(w, b, Neighbor(w, m, e), Neighbor(w, m, f), x, y);
    }
  }

  lemma OneGroup(w: nat, b: Board, p: int, q: int, x: int, y: int)
    requires 0 <= p < |b| && 0 <= q < |b| && b[p] == b[q]
    requires x in Group(w, b, p) && y in Group(w, b, q) && Adjacent(w, x, y)
    ensures Group(w, b, p) == Group(w, b, q)
  {
    SameGroup(w, b, p, x);
    SameGroup(w, b, q, y);
    NeighborJoins(w, b, x, y);
    SameGroup(w, b, x, y);
  }
}
