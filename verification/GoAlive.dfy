/** No group without a liberty is ever left on the board, and when a move is suicide. */
module GoAlive {
  import opened GoBoard
  import opened GoRules

  /** The group at `p` touches `m` in a direction the capture loop has yet to visit. */
  ghost predicate ToVisit(w: nat, b: Board, m: int, p: int, d: nat)
    requires 0 <= p < |b|
  {
    exists e: nat :: d <= e < 4 && Neighbor(w, m, e) in Group(w, b, p)
  }

  /** After `d` directions every group has a liberty, holds the new stone, or is yet to be visited. */
  ghost predicate AliveSoFar(w: nat, b: Board, m: int, d: nat) {
    forall p :: 0 <= p < |b| && b[p] > 0 ==> Alive(w, b, p) || m in Group(w, b, p) || ToVisit(w, b, m, p, d)
  }

  lemma LibertyTouches(w: nat, b: Board, m: int, p: int) returns (e: nat)
    requires 0 <= p < |b| && Touches(w, Group(w, b, p), m)
    ensures e < 4 && Neighbor(w, m, e) in Group(w, b, p)
  {
    hide Group;
    var x :| x in Group(w, b, p) && Adjacent(w, x, m);
    e := if x == m - 1 then 0 else if x == m + 1 then 1 else if x == m - w then 2 else 3;
  }

  lemma StoneStarts(w: nat, b: Board, m: int, c: int)
    requires NoDead(w, b) && 0 <= m < |b| && b[m] == OPEN && c > 0
    ensures AliveSoFar(w, b[m := c], m, 0)
  {
    hide Group, Neighbor, Adjacent;
    var b' := b[m := c];
    forall p | 0 <= p < |b'| && b'[p] > 0 && m !in Group(w, b', p)
      ensures Alive(w, b', p) || ToVisit(w, b', m, p, 0)
    {
      if p == m {
        GroupIsClosed(w, b', p);
      } else {
        PlaceKeepsOthers(w, b, m, c, p);
        assert Alive(w, b, p);
        if !Alive(w, b', p) {
          var l :| l in Liberties(w, b, Group(w, b, p));
          assert l in Liberties(w, b', Group(w, b', p)) || l == m;
          var e := LibertyTouches(w, b, m, p);
        }
      }
    }
  }

  /** A visited direction whose group stays. */
  lemma VisitKeeps(w: nat, b: Board, m: int, c: int, d: nat)
    requires AliveSoFar(w, b, m, d) && 0 <= m < |b| && b[m] == c && d < 4
    requires !DeadAt(w, b, m, c, d)
    ensures AliveSoFar(w, b, m, d + 1)
  {
    forall p | 0 <= p < |b| && b[p] > 0 && !Alive(w, b, p) && m !in Group(w, b, p)
      ensures ToVisit(w, b, m, p, d + 1)
    {
      VisitedElsewhere(w, b, m, c, d, p);
    }
  }

  lemma VisitedElsewhere(w: nat, b: Board, m: int, c: int, d: nat, p: int)
    requires 0 <= m < |b| && b[m] == c && d < 4 && 0 <= p < |b| && b[p] > 0
    requires !Alive(w, b, p) && m !in Group(w, b, p) && ToVisit(w, b, m, p, d)
    requires !DeadAt(w, b, m, c, d)
    ensures ToVisit(w, b, m, p, d + 1)
  {
    hide Liberties;
    var e: nat :| d <= e < 4 && Neighbor(w, m, e) in Group(w, b, p);
    var n := Neighbor(w, m, e);
    if e == d {
      SameGroup(w, b, p, n);
      NeighborJoins(w, b, n, m);
    }
  }

  /** A visited direction whose group comes off. */
  lemma RemovalKeeps(w: nat, b: Board, m: int, d: nat)
    requires AliveSoFar(w, b, m, d) && 0 <= m < |b| && d < 4
    requires var n := Neighbor(w, m, d); 0 <= n < |b| && b[n] > 0 && m !in Group(w, b, n)
    ensures AliveSoFar(w, Cleared(b, Group(w, b, Neighbor(w, m, d))), m, d + 1)
  {
    hide Group, Liberties;
    var n := Neighbor(w, m, d);
    var b' := Cleared(b, Group(w, b, n));
    forall p | 0 <= p < |b'| && b'[p] > 0 && m !in Group(w, b', p)
      ensures Alive(w, b', p) || ToVisit(w, b', m, p, d + 1)
    {
      ClearKeepsOthers(w, b, n, p);
      if !Alive(w, b', p) {
        assert !Alive(w, b, p);
        var e: nat :| d <= e < 4 && Neighbor(w, m, e) in Group(w, b, p);
        if e == d { NotInBoth(w, b, p, n); }
      }
    }
  }

  lemma NotInBoth(w: nat, b: Board, p: int, n: int)
    requires 0 <= p < |b| && 0 <= n < |b| && n in Group(w, b, p)
    ensures p in Group(w, b, n)
  {
    SameGroup(w, b, p, n);
    GroupIsClosed(w, b, p);
  }

  /** Where a group was captured next to the new stone there is now an open point. */
  ghost predicate Freed(w: nat, b: Board, m: int) {
    exists e: nat :: e < 4 && 0 <= Neighbor(w, m, e) < |b| && b[Neighbor(w, m, e)] == OPEN
  }

  /** What the capture loop keeps: the new stone stands, no group out of reach is dead, and captures free a neighbour. */
  lemma {:induction false} CapturesKeep(w: nat, b: Board, m: int, c: int, d: nat, x: Caught)
    requires 0 <= m < |b| && b[m] == c && c > 0 && d <= 4 && AliveSoFar(w, b, m, 0)
    requires x.cells == b && x.captured == 0
    ensures var y := Captures(w, m, c, d, x);
            y.cells[m] == c && AliveSoFar(w, y.cells, m, d) && (y.captured > 0 ==> Freed(w, y.cells, m))
  {
    hide AliveSoFar, Alive, Group;
    if d > 0 {
      CapturesKeep(w, b, m, c, d - 1, x);
      var y := Captures(w, m, c, d - 1, x);
      var n := Neighbor(w, m, d - 1);
      if DeadAt(w, y.cells, m, c, d - 1) {
        GroupApart(w, y.cells, n, m);
        RemovalKeeps(w, y.cells, m, d - 1);
        GroupIsClosed(w, y.cells, n);
        assert CaptureAt(w, m, c, d - 1, y).cells[n] == OPEN;
      } else {
        VisitKeeps(w, y.cells, m, c, d - 1);
      }
    }
  }

  lemma FreedIsAlive(w: nat, b: Board, m: int)
    requires 0 <= m < |b| && b[m] > 0 && Freed(w, b, m)
    ensures Alive(w, b, m)
  {
    hide Group;
    GroupIsClosed(w, b, m);
    var e: nat :| e < 4 && 0 <= Neighbor(w, m, e) < |b| && b[Neighbor(w, m, e)] == OPEN;
    assert Adjacent(w, m, Neighbor(w, m, e));
    assert Touches(w, Group(w, b, m), Neighbor(w, m, e));
    assert Neighbor(w, m, e) in Liberties(w, b, Group(w, b, m));
  }

  /** All directions visited and the stone's own group alive: nothing on the board is dead. */
  lemma OwnGroupLast(w: nat, b: Board, m: int)
    requires 0 <= m < |b| && AliveSoFar(w, b, m, 4) && Alive(w, b, m)
    ensures NoDead(w, b)
  {
    forall p | 0 <= p < |b| && b[p] > 0 ensures Alive(w, b, p) {
      if m in Group(w, b, p) { SameGroup(w, b, p, m); }
    }
  }

  lemma SuicideLeavesNone(w: nat, b: Board, m: int)
    requires 0 <= m < |b| && b[m] > 0 && AliveSoFar(w, b, m, 4)
    ensures NoDead(w, Cleared(b, Group(w, b, m)))
  {
    hide Group, Liberties;
    var b' := Cleared(b, Group(w, b, m));
    forall p | 0 <= p < |b'| && b'[p] > 0 ensures Alive(w, b', p) {
      ClearKeepsOthers(w, b, m, p);
      if m in Group(w, b, p) { NotInBoth(w, b, p, m); }
      assert Alive(w, b, p);
    }
  }

  /** No dead groups: a move leaves every group on the board with a liberty, whoever plays and in whatever
      order the captures are made. */
  lemma PlayLeavesNoDead(g: Geom, s: Position, move: int)
    requires Sound(g, s) && NoDead(g.W(), s.cells) && move < |s.cells|
    requires move >= 0 && s.toMove !in s.out ==> s.cells[move] == OPEN
    ensures NoDead(g.W(), Play(g, s, move).after.cells)
  {
    hide NoDead, Alive, AliveSoFar, Group, Cleared, HashOf;
    if move >= 0 && s.toMove !in s.out {
      PlaceLeavesNoDead(g, s.(timeouts := 0), move);
    }
  }

  lemma PlaceLeavesNoDead(g: Geom, s: Position, m: int)
    requires NoDead(g.W(), s.cells) && 0 <= m < |s.cells| && s.cells[m] == OPEN && s.toMove > 0
    ensures NoDead(g.W(), PlaceStone(g, s, m).after.cells)
  {
    hide NoDead, Alive, AliveSoFar, Group, Cleared, HashOf, Captures;
    var w, c := g.W(), s.toMove;
    StoneStarts(w, s.cells, m, c);
    var x := Captures(w, m, c, 4, Placed(s, m));
    CapturesKeep(w, s.cells[m := c], m, c, 4, Placed(s, m));
    if x.captured > 0 { FreedIsAlive(w, x.cells, m); }
    if Alive(w, x.cells, m) {
      OwnGroupLast(w, x.cells, m);
    } else {
      SuicideLeavesNone(w, x.cells, m);
    }
  }
}
