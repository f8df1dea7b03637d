/** `wouldSuicide` looks only at liberty counts before the move; it foretells exactly what the move will do. */
module GoSuicide {
  import opened GoBoard
  import opened GoRules

  /** No neighbour of `p` is open, no own neighbour has a liberty to spare, no opponent would be captured. */
  ghost predicate Doomed(w: nat, b: Board, p: int, c: int) {
    forall d: nat {:trigger Neighbor(w, p, d)} :: d < 4 && 0 <= Neighbor(w, p, d) < |b| ==> Shut(w, b, Neighbor(w, p, d), c)
  }

  ghost predicate Shut(w: nat, b: Board, n: int, c: int)
    requires 0 <= n < |b|
  {
    && b[n] != OPEN
    && (b[n] == c ==> |Liberties(w, b, Group(w, b, n))| < 2)
    && (b[n] > 0 && b[n] != c ==> |Liberties(w, b, Group(w, b, n))| != 1)
  }

  lemma OpenNeighborIsLiberty(w: nat, b: Board, p: int, n: int)
    requires 0 <= p < |b| && b[p] == OPEN && 0 <= n < |b| && Adjacent(w, n, p)
    ensures p in Liberties(w, b, Group(w, b, n))
  {
    hide Group;
    GroupIsClosed(w, b, n);
  }

  lemma OneElement(s: set<int>, x: int)
    requires x in s
    ensures |s| < 2 <==> s == {x}
    ensures |s| == 1 <==> s == {x}
  {
    if |s| < 2 {
      assert |s - {x}| == 0;
      assert s == {x} + (s - {x});
    }
  }

  /** After a stone at `p`, an opponent's group next to it is dead exactly if `p` was its one liberty. */
  lemma OpponentDiesIff(w: nat, b: Board, p: int, c: int, n: int)
    requires 0 <= p < |b| && b[p] == OPEN && c > 0
    requires 0 <= n < |b| && Adjacent(w, n, p) && b[n] > 0 && b[n] != c
    ensures Alive(w, b[p := c], n) <==> |Liberties(w, b, Group(w, b, n))| != 1
  {
    hide Group, Liberties;
    OpenNeighborIsLiberty(w, b, p, n);
    OneElement(Liberties(w, b, Group(w, b, n)), p);
    OtherColorApart(w, b, p, c, n);
    PlaceKeepsOthers(w, b, p, c, n);
  }

  /** Cells joined to the stone at `p`: the stone and the groups of its colour next to it. */
  ghost function Merged(w: nat, b: Board, p: int, c: int): set<int> {
    set x | 0 <= x < |b| && (x == p || NextTo(w, b, p, c, x))
  }

  ghost predicate NextTo(w: nat, b: Board, p: int, c: int, x: int) {
    exists d: nat :: d < 4 && 0 <= Neighbor(w, p, d) < |b| && b[Neighbor(w, p, d)] == c && x in Group(w, b, Neighbor(w, p, d))
  }

  lemma MergedIsClosed(w: nat, b: Board, p: int, c: int)
    requires 0 <= p < |b| && b[p] == OPEN && c > 0
    ensures Closed(w, b[p := c], Merged(w, b, p, c))
  {
    hide Group;
    var b' := b[p := c];
    forall x, y | x in Merged(w, b, p, c) && 0 <= y < |b| && Adjacent(w, x, y) && b'[y] == b'[x] && y != p
      ensures NextTo(w, b, p, c, y)
    {
      if x == p {
        GroupIsClosed(w, b, y);
        var d: nat := if y == p - 1 then 0 else if y == p + 1 then 1 else if y == p - w then 2 else 3;
        assert Neighbor(w, p, d) == y;
      } else {
        var d: nat :| d < 4 && 0 <= Neighbor(w, p, d) < |b| && b[Neighbor(w, p, d)] == c && x in Group(w, b, Neighbor(w, p, d));
        GroupIsClosed(w, b, Neighbor(w, p, d));
        SameColor(w, b, Neighbor(w, p, d), x);
      }
    }
  }

  lemma SameColor(w: nat, b: Board, p: int, x: int)
    requires 0 <= p < |b| && x in Group(w, b, p)
    ensures 0 <= x < |b| && b[x] == b[p]
  {
  }

  /** A doomed stone's group would have no liberty at all. */
  lemma DoomedHasNone(w: nat, b: Board, p: int, c: int)
    requires 0 <= p < |b| && b[p] == OPEN && c > 0 && Doomed(w, b, p, c)
    ensures !Alive(w, b[p := c], p)
  {
    hide Group;
    var b' := b[p := c];
    MergedIsClosed(w, b, p, c);
    GroupIsLeast(w, b', p, Merged(w, b, p, c));
    forall l | l in Liberties(w, b', Group(w, b', p)) ensures false {
      var x :| x in Group(w, b', p) && Adjacent(w, x, l);
      assert x in Merged(w, b, p, c);
      LibertyOfMerged(w, b, p, c, x, l);
    }
  }

  lemma LibertyOfMerged(w: nat, b: Board, p: int, c: int, x: int, l: int)
    requires 0 <= p < |b| && b[p] == OPEN && c > 0 && Doomed(w, b, p, c)
    requires x in Merged(w, b, p, c) && 0 <= l < |b| && Adjacent(w, x, l) && l != p
    ensures b[l] != OPEN
  {
    hide Group;
    if x == p {
      var d: nat := if l == p - 1 then 0 else if l == p + 1 then 1 else if l == p - w then 2 else 3;
      assert Neighbor(w, p, d) == l;
    } else {
      var d: nat :| d < 4 && 0 <= Neighbor(w, p, d) < |b| && b[Neighbor(w, p, d)] == c && x in Group(w, b, Neighbor(w, p, d));
      var n := Neighbor(w, p, d);
      var libs := Liberties(w, b, Group(w, b, n));
      OpenNeighborIsLiberty(w, b, p, n);
      OneElement(libs, p);
      assert Shut(w, b, n, c);
      assert Touches(w, Group(w, b, n), l);
      assert b[l] == OPEN ==> l in libs;
    }
  }

  /** Unless something is captured, an open neighbour or an own neighbour with a second liberty keeps the stone alive. */
  lemma SpareLiberty(w: nat, b: Board, p: int, c: int, d: nat)
    requires 0 <= p < |b| && b[p] == OPEN && c > 0 && d < 4 && 0 <= Neighbor(w, p, d) < |b|
    requires var n := Neighbor(w, p, d); b[n] == OPEN || (b[n] == c && |Liberties(w, b, Group(w, b, n))| >= 2)
    requires Neighbor(w, p, d) != p
    ensures Alive(w, b[p := c], p)
  {
    hide Group;
    var b', n := b[p := c], Neighbor(w, p, d);
    assert Adjacent(w, p, n);
    GroupIsClosed(w, b', p);
    if b[n] == OPEN {
      assert Touches(w, Group(w, b', p), n);
      assert n in Liberties(w, b', Group(w, b', p));
    } else {
      var libs := Liberties(w, b, Group(w, b, n));
      OpenNeighborIsLiberty(w, b, p, n);
      OneElement(libs, p);
      var l :| l in libs && l != p;
      var x :| x in Group(w, b, n) && Adjacent(w, x, l);
      OwnGroupJoins(w, b, p, c, n);
      assert Touches(w, Group(w, b', p), l);
      assert l in Liberties(w, b', Group(w, b', p));
    }
  }

  lemma OwnGroupJoins(w: nat, b: Board, p: int, c: int, n: int)
    requires 0 <= p < |b| && b[p] == OPEN && c > 0 && 0 <= n < |b| && Adjacent(w, p, n) && b[n] == c
    ensures Group(w, b, n) <= Group(w, b[p := c], p)
  {
    hide Group;
    var b' := b[p := c];
    GroupIsClosed(w, b', p);
    SameColorAll(w, b', p);
    var s := Group(w, b', p) - {p};
    assert Closed(w, b, s) by {
      forall x, y | x in s && 0 <= x < |b| && 0 <= y < |b| && Adjacent(w, x, y) && b[y] == b[x] ensures y in s {
        assert b'[x] == c;
      }
    }
    GroupIsLeast(w, b, n, s);
  }

  lemma SameColorAll(w: nat, b: Board, p: int)
    requires 0 <= p < |b|
    ensures forall x <- Group(w, b, p) :: 0 <= x < |b| && b[x] == b[p]
  {
  }

  /** While no neighbour is dead the captures change nothing. */
  lemma {:induction false} NothingCaught(w: nat, m: int, c: int, d: nat, x: Caught)
    requires d <= 4 && 0 <= m < |x.cells|
    requires forall e: nat :: e < d ==> !DeadAt(w, x.cells, m, c, e)
    ensures Captures(w, m, c, d, x) == x
  {
    hide Alive, Group;
    if d > 0 {
      NothingCaught(w, m, c, d - 1, x);
    }
  }

  /** A dead neighbour means a capture. */
  lemma {:induction false} SomethingCaught(w: nat, m: int, c: int, d: nat, x: Caught, e: nat)
    requires d <= 4 && 0 <= m < |x.cells| && x.captured == 0 && e < d && DeadAt(w, x.cells, m, c, e)
    ensures Captures(w, m, c, d, x).captured > 0
    decreases d
  {
    hide Alive, Group;
    if e < d - 1 {
      SomethingCaught(w, m, c, d - 1, x, e);
    } else if i: nat :| i < d - 1 && DeadAt(w, x.cells, m, c, i) {
      SomethingCaught(w, m, c, d - 1, x, i);
    } else {
      NothingCaught(w, m, c, d - 1, x);
      GroupNotEmpty(w, x.cells, Neighbor(w, m, e));
    }
  }

  /** The prediction is exact: on every position and open point, the move is suicide if and only if it was foretold. */
  lemma SuicideIffDoomed(g: Geom, s: Position, m: int)
    requires Sound(g, s) && 0 <= m < |s.cells| && s.cells[m] == OPEN && s.toMove !in s.out
    ensures Play(g, s, m).result.suicide > 0 <==> Doomed(g.W(), s.cells, m, s.toMove)
  {
    hide Alive, Group, HashOf, Captures, Liberties, Cleared;
    var w, c, b := g.W(), s.toMove, s.cells;
    var x := Captures(w, m, c, 4, Placed(s, m));
    assert Play(g, s, m).result == Settle(g, s.(timeouts := 0), m, x).result;
    GroupNotEmpty(w, x.cells, m);
    if Doomed(w, b, m, c) {
      DoomedIsSuicide(g, s, m);
    } else {
      var d: nat :| d < 4 && 0 <= Neighbor(w, m, d) < |b| && !Shut(w, b, Neighbor(w, m, d), c);
      ShutOutIsSafe(g, s, m, d);
    }
  }

  lemma DoomedIsSuicide(g: Geom, s: Position, m: int)
    requires Sound(g, s) && 0 <= m < |s.cells| && s.cells[m] == OPEN && Doomed(g.W(), s.cells, m, s.toMove)
    ensures var x := Captures(g.W(), m, s.toMove, 4, Placed(s, m)); x.captured == 0 && !Alive(g.W(), x.cells, m)
  {
    hide Alive, Group, HashOf, Captures, Liberties;
    var w, c, b := g.W(), s.toMove, s.cells;
    DoomedHasNone(w, b, m, c);
    var b' := b[m := c];
    forall e: nat | e < 4 && 0 <= Neighbor(w, m, e) < |b|
      ensures !DeadAt(w, b', m, c, e)
    {
      var n := Neighbor(w, m, e);
      if b[n] > 0 && b[n] != c { OpponentDiesIff(w, b, m, c, n); }
    }
    NothingCaught(w, m, c, 4, Placed(s, m));
  }

  lemma ShutOutIsSafe(g: Geom, s: Position, m: int, d: nat)
    requires Sound(g, s) && 0 <= m < |s.cells| && s.cells[m] == OPEN && d < 4
    requires var n := Neighbor(g.W(), m, d); 0 <= n < |s.cells| && !Shut(g.W(), s.cells, n, s.toMove)
    ensures var x := Captures(g.W(), m, s.toMove, 4, Placed(s, m)); x.captured > 0 || Alive(g.W(), x.cells, m)
  {
    hide Alive, Group, HashOf, Captures, Liberties;
    var w, c, b, n := g.W(), s.toMove, s.cells, Neighbor(g.W(), m, d);
    var x := Placed(s, m);
    if b[n] > 0 && b[n] != c && |Liberties(w, b, Group(w, b, n))| == 1 {
      OpponentDiesIff(w, b, m, c, n);
      SomethingCaught(w, m, c, 4, x, d);
    } else {
      SpareLiberty(w, b, m, c, d);
      if e: nat :| e < 4 && DeadAt(w, x.cells, m, c, e) {
        SomethingCaught(w, m, c, 4, x, e);
      } else {
        NothingCaught(w, m, c, 4, x);
      }
    }
  }
}
