/** The ko rule with two seats refuses exactly a return to the situation before the capture. */
module GoKo {
  import opened GoBoard
  import opened GoRules
  import opened GoAlive
  import opened GoCapture
  import opened GoSuicide

  /** A single stone was captured: it stood in one of the directions visited, and only its cell changed. */
  predicate TookOne(w: nat, b: Board, m: int, c: int, d: nat, y: Caught) {
    && 0 <= y.capPt < |b| && y.victim == b[y.capPt] && y.victim > 0 && y.victim != c
    && y.cells == b[y.capPt := OPEN]
    && exists e: nat :: e < d && Neighbor(w, m, e) == y.capPt
  }

  lemma {:induction false} OneCaptured(w: nat, m: int, c: int, d: nat, x: Caught)
    requires x.captured == 0
    ensures var y := Captures(w, m, c, d, x);
            && (y.captured == 0 ==> y == x)
            && (y.captured == 1 ==> TookOne(w, x.cells, m, c, d, y))
  {
    hide Group, Alive, Neighbor;
    if d > 0 {
      OneCaptured(w, m, c, d - 1, x);
      var y := Captures(w, m, c, d - 1, x);
      if DeadAt(w, y.cells, m, c, d - 1) {
        var n := Neighbor(w, m, d - 1);
        GroupNotEmpty(w, y.cells, n);
        GroupIsClosed(w, y.cells, n);
        if |Group(w, y.cells, n)| == 1 { OneElement(Group(w, y.cells, n), n); }
      } else if y.captured == 1 {
        var e: nat :| e < d - 1 && Neighbor(w, m, e) == y.capPt;
        assert e < d;
      }
    }
  }

  lemma SoloGroup(w: nat, b: Board, m: int)
    requires Framed(w, b) && 0 <= m < |b| && b[m] > 0 && Solo(w, b, m, b[m])
    ensures Group(w, b, m) == {m}
  {
    hide Group, Framed;
    GroupIsClosed(w, b, m);
    assert Closed(w, b, {m}) by {
      forall y | 0 <= y < |b| && Adjacent(w, m, y) ensures b[y] != b[m] {
        assert Neighbor(w, m, DirectionOf(w, m, y)) == y;
      }
    }
    GroupIsLeast(w, b, m, {m});
  }

  function DirectionOf(w: nat, m: int, y: int): (d: nat)
    requires Adjacent(w, m, y)
    ensures d < 4 && Neighbor(w, m, d) == y
  {
    if y == m - 1 then 0 else if y == m + 1 then 1 else if y == m - w then 2 else 3
  }

  /** The position a ko leaves: the stone at `m` stands alone and its only liberty is the cell `q` it captured on. */
  ghost predicate KoShape(w: nat, b: Board, m: int, c: int, q: int) {
    && 0 <= m < |b| && 0 <= q < |b| && m != q && Adjacent(w, q, m)
    && b[m] == OPEN && c > 0 && b[q] > 0 && b[q] != c
    && Solo(w, b[m := c], m, c)
    && (forall n :: 0 <= n < |b| && Adjacent(w, m, n) && n != q ==> b[n] != OPEN)
  }

  /** A move that sets the ko leaves the ko shape. */
  lemma KoIsSet(g: Geom, s: Position, m: int)
    requires Sound(g, s) && 0 <= m < |s.cells| && s.cells[m] == OPEN && s.toMove !in s.out
    requires Play(g, s, m).after.ko != -1
    ensures var t := Play(g, s, m).after;
            && s.koOn && KoShape(g.W(), s.cells, m, s.toMove, t.ko) && t.koColor == s.cells[t.ko]
            && t.cells == s.cells[m := s.toMove][t.ko := OPEN] && t.koUntil == s.moveNo + s.k
  {
    hide Group, Alive, Captures, HashOf, Liberties;
    var w, c, b := g.W(), s.toMove, s.cells[m := s.toMove];
    PlacedOnBoard(g, s.k, s.cells, m, c);
    var x := Captures(w, m, c, 4, Placed(s, m));
    OneCaptured(w, m, c, 4, Placed(s, m));
    var t := Play(g, s, m).after;
    assert t.ko == Settle(g, s.(timeouts := 0), m, x).after.ko;
    var q := x.capPt;
    SoloAgain(g, s.k, b, m, c, q);
    OnlyLiberty(w, x.cells, m, q);
  }

  lemma SoloAgain(g: Geom, k: nat, b: Board, m: int, c: int, q: int)
    requires OnBoard(g, k, b) && 0 <= m < |b| && 0 <= q < |b| && b[m] == c && c > 0 && b[q] != c && b[q] > 0
    requires Solo(g.W(), b[q := OPEN], m, c)
    ensures Solo(g.W(), b, m, c) && Group(g.W(), b[q := OPEN], m) == {m}
  {
    hide Group;
    var b' := b[q := OPEN];
    forall d: nat {:trigger Neighbor(g.W(), m, d)} | d < 4 && 0 <= Neighbor(g.W(), m, d) < |b|
      ensures b[Neighbor(g.W(), m, d)] != c
    {
      assert b'[Neighbor(g.W(), m, d)] != c;
    }
    SoloGroup(g.W(), b', m);
  }

  lemma OnlyLiberty(w: nat, b: Board, m: int, q: int)
    requires 0 <= m < |b| && 0 <= q < |b| && b[q] == OPEN && Adjacent(w, m, q)
    requires Group(w, b, m) == {m} && |Liberties(w, b, {m})| == 1
    ensures forall n :: 0 <= n < |b| && Adjacent(w, m, n) && n != q ==> b[n] != OPEN
  {
    hide Group;
    assert Touches(w, {m}, q);
    OneElement(Liberties(w, b, {m}), q);
    forall n | 0 <= n < |b| && Adjacent(w, m, n) && n != q ensures b[n] != OPEN {
      assert Touches(w, {m}, n);
      assert b[n] == OPEN ==> n in Liberties(w, b, {m});
    }
  }

  /** In the ko shape the lone stone is dead as soon as `q` is filled again, and no other group of its colour is. */
  lemma OnlyTheLoneStone(g: Geom, s: Position, m: int, q: int, p: int)
    requires Sound(g, s) && NoDead(g.W(), s.cells) && s.toMove <= s.k && KoShape(g.W(), s.cells, m, s.toMove, q)
    requires 0 <= p < |s.cells| && s.cells[m := s.toMove][p] == s.toMove
    ensures Alive(g.W(), s.cells[m := s.toMove], p) <==> p != m
    ensures Group(g.W(), s.cells[m := s.toMove], m) == {m}
  {
    hide Group, HashOf, NoDead;
    var w, c, b := g.W(), s.toMove, s.cells[m := s.toMove];
    PlacedOnBoard(g, s.k, s.cells, m, c);
    SoloGroup(w, b, m);
    if p != m {
      if m in Group(w, b, p) { NotInBoth(w, b, p, m); }
      PlaceKeepsOthers(w, s.cells, m, c, p);
      assert Alive(w, s.cells, p) by { LivesBefore(w, s.cells, p); }
      NotItsLiberty(w, s.cells, m, c, p);
    }
  }

  lemma LivesBefore(w: nat, b: Board, p: int)
    requires NoDead(w, b) && 0 <= p < |b| && b[p] > 0
    ensures Alive(w, b, p)
  {
  }

  lemma NotItsLiberty(w: nat, b: Board, m: int, c: int, p: int)
    requires 0 <= m < |b| && b[m] == OPEN && c > 0 && Solo(w, b[m := c], m, c)
    requires 0 <= p < |b| && b[p] == c
    ensures m !in Liberties(w, b, Group(w, b, p))
  {
    hide Group;
    if Touches(w, Group(w, b, p), m) {
      var x :| x in Group(w, b, p) && Adjacent(w, x, m);
      SameColorAll(w, b, p);
      assert Adjacent(w, m, x);
      assert Neighbor(w, m, DirectionOf(w, m, x)) == x;
    }
  }

  /** With two seats, filling `q` again takes off the lone stone and nothing else. */
  lemma RetakeRestores(g: Geom, s: Position, m: int, q: int)
    requires Sound(g, s) && NoDead(g.W(), s.cells) && s.k == 2 && KoShape(g.W(), s.cells, m, s.toMove, q)
    ensures var b, v := s.cells[m := s.toMove], s.cells[q];
            forall x: Caught :: x.cells == b && x.captured == 0 ==>
                                  Captures(g.W(), q, v, 4, x).cells == s.cells && Captures(g.W(), q, v, 4, x).captured > 0
  {
    hide Group, Alive, Captures, HashOf, NoDead, Liberties;
    var w, c, b, v := g.W(), s.toMove, s.cells[m := s.toMove], s.cells[q];
    forall p | 0 <= p < |b| && b[p] == c ensures (Alive(w, b, p) <==> p != m) && Group(w, b, m) == {m} {
      OnlyTheLoneStone(g, s, m, q, p);
    }
    forall x: Caught | x.cells == b && x.captured == 0
      ensures Captures(w, q, v, 4, x).cells == s.cells && Captures(w, q, v, 4, x).captured > 0
    {
      var e := DirectionOf(w, q, m);
      assert DeadAt(w, b, q, v, e);
      SomethingCaught(w, q, v, 4, x, e);
      OneOpponentNoneTouch(w, b, q, v, c);
      ExactlyTheDead(w, q, v, x);
      assert forall d: nat :: d < 4 && DeadAt(w, b, q, v, d) ==> Neighbor(w, q, d) == m;
      assert forall i :: 0 <= i < |b| ==> (InDead(w, b, q, v, 4, i) <==> i == m);
    }
  }

  /** With two seats the ko rule is implied by situational superko: whenever the move that set the ko is followed by an
      attempt to play there, the move is refused, and it would bring back the board and the seat to move from before. */
  lemma KoIsSuperko(g: Geom, s: Position, m: int)
    requires Sound(g, s) && NoDead(g.W(), s.cells) && s.k == 2
    requires 0 <= m < |s.cells| && s.cells[m] == OPEN && s.toMove !in s.out
    requires Play(g, s, m).after.ko != -1 && Play(g, s, m).after.toMove !in s.out
    ensures var t := Play(g, s, m).after;
            && 0 <= t.ko < |t.cells| && t.cells[t.ko] == OPEN && !IsLegal(g, t, t.ko)
            && Play(g, t, t.ko).after.cells == s.cells && Play(g, t, t.ko).after.toMove == s.toMove
  {
    hide Captures, HashOf, NoDead, KoShape, Placed, Liberties, Alive, Group;
    KoIsSet(g, s, m);
    var t := Play(g, s, m).after;
    KoShapeFacts(g, s, m, t.ko);
    RetakeRestores(g, s, m, t.ko);
    Retake(g, s, m, t);
  }

  lemma KoShapeFacts(g: Geom, s: Position, m: int, q: int)
    requires Sound(g, s) && KoShape(g.W(), s.cells, m, s.toMove, q)
    ensures 0 <= q < |s.cells| && q != m && 0 < s.cells[q] <= s.k && s.cells[q] != s.toMove
  {
  }

  lemma Retake(g: Geom, s: Position, m: int, t: Position)
    requires Sound(g, s) && s.k == 2 && 0 <= m < |s.cells| && s.cells[m] == OPEN
    requires 0 <= t.ko < |s.cells| && t.ko != m && s.cells[t.ko] == t.toMove > 0 && t.k == 2
    requires t.cells == s.cells[m := s.toMove][t.ko := OPEN] && t.toMove !in t.out
    requires forall x: Caught :: x.cells == s.cells[m := s.toMove] && x.captured == 0 ==>
                                   Captures(g.W(), t.ko, t.toMove, 4, x).cells == s.cells && Captures(g.W(), t.ko, t.toMove, 4, x).captured > 0
    ensures Play(g, t, t.ko).after.cells == s.cells && Play(g, t, t.ko).after.toMove == t.toMove % 2 + 1
  {
    hide Captures, HashOf, Group, Alive, Liberties;
    var x0 := Placed(t, t.ko);
    assert x0.cells == s.cells[m := s.toMove];
    var x := Captures(g.W(), t.ko, t.toMove, 4, x0);
    assert Play(g, t, t.ko).after.cells == Settle(g, t.(timeouts := 0), t.ko, x).after.cells;
  }

  /** With more seats the refused move never brings back the seat to move, so superko alone would not refuse it. */
  lemma KoBringsTurnBackIff(g: Geom, s: Position, m: int)
    requires Sound(g, s) && 0 <= m < |s.cells| && s.cells[m] == OPEN && s.toMove !in s.out
    requires var t := Play(g, s, m).after; t.ko != -1 && t.toMove == t.koColor
    ensures var t := Play(g, s, m).after;
            0 <= t.ko < |t.cells| && (Play(g, t, t.ko).after.toMove == s.toMove <==> s.k == 2)
  {
    hide Play, HashOf, KoShape;
    KoIsSet(g, s, m);
    var t := Play(g, s, m).after;
    KoShapeFacts(g, s, m, t.ko);
    TwoSeatsOn(s.k, s.toMove);
  }

  lemma TwoSeatsOn(k: nat, c: nat)
    requires 1 <= c <= k && c % k + 1 != c
    ensures (c % k + 1) % k + 1 == c <==> k == 2
  {
    SeatAfter(k, c);
    SeatAfter(k, c % k + 1);
  }

  lemma SeatAfter(k: nat, c: nat)
    requires 1 <= c <= k
    ensures c % k + 1 == if c == k then 1 else c + 1
  {
  }
}
