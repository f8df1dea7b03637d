/** Exactly when the ko rule forbids a point, and to whom. */
module GoKoRule {
  import opened GoBoard
  import opened GoRules
  import opened GoKo
  import opened GoStones
  import opened GoRuns

  /** With ko on, the stone at `m` stands alone, has taken exactly the stone on `q`, and has no other liberty. */
  ghost predicate TookLoneStone(g: Geom, s: Position, m: int, q: int) {
    && s.k > 0 && 0 <= m < |s.cells| && 0 <= q < |s.cells|
    && s.koOn && KoShape(g.W(), s.cells, m, s.toMove, q)
    && Play(g, s, m).after.cells == s.cells[m := s.toMove][q := OPEN]
  }

  /** The ko point is set exactly then, for the seat whose stone was taken. */
  lemma KoIsSetIff(g: Geom, s: Position, m: int, q: int)
    requires Sound(g, s) && 0 <= m < |s.cells| && s.cells[m] == OPEN && s.toMove !in s.out && 0 <= q
    ensures Play(g, s, m).after.ko == q <==> TookLoneStone(g, s, m, q)
    ensures Play(g, s, m).after.ko == q ==> Play(g, s, m).after.koColor == s.cells[q] && Play(g, s, m).after.koUntil == s.moveNo + s.k
  {
    hide Play, HashOf, KoShape, OnBoard;
    if Play(g, s, m).after.ko == q {
      KoIsSet(g, s, m);
      ShapeInside(g.W(), s.cells, m, s.toMove, q);
    } else if TookLoneStone(g, s, m, q) {
      LoneStoneSetsKo(g, s, m, q);
    }
  }

  lemma ShapeInside(w: nat, b: Board, m: int, c: int, q: int)
    requires KoShape(w, b, m, c, q)
    ensures 0 <= q < |b| && 0 <= m < |b| && m != q && b[q] > 0 && b[q] != c && c > 0
  {
  }

  lemma OneMissing(b: Board, m: int, c: int, q: int)
    requires 0 <= m < |b| && 0 <= q < |b| && m != q && b[m] == OPEN && b[q] > 0 && c > 0
    ensures |AllStones(b[m := c][q := OPEN])| == |AllStones(b)|
  {
    var after := b[m := c][q := OPEN];
    assert AllStones(after) == AllStones(b) + {m} - {q};
    assert m !in AllStones(b) && q in AllStones(b);
  }

  lemma LoneStoneSetsKo(g: Geom, s: Position, m: int, q: int)
    requires Sound(g, s) && TookLoneStone(g, s, m, q) && s.cells[m] == OPEN && s.toMove !in s.out
    ensures Play(g, s, m).after.ko == q
  {
    hide Captures, Group, Alive, HashOf, OnBoard, Liberties, Solo, AllStones;
    var w, c, b := g.W(), s.toMove, s.cells[m := s.toMove];
    var x := Captures(w, m, c, 4, Placed(s, m));
    var s1 := s.(timeouts := 0);
    PlaceIsSettle(g, s1, m);
    assert Play(g, s, m).after.cells == Settle(g, s1, m, x).after.cells && Play(g, s, m).after.ko == Settle(g, s1, m, x).after.ko;
    assert Play(g, s, m).result == Settle(g, s1, m, x).result;
    OneMissing(s.cells, m, c, q);
    PlayCountsStones(g, s, m);
    OneCaptured(w, m, c, 4, Placed(s, m));
    NoSuicideHere(g, s, s1, m, q, x);
    assert x.cells[q] == OPEN && b[q] > 0;
    assert x.captured == 1 && x.cells == b[q := OPEN] && x.capPt == q;
    PlacedOnBoard(g, s.k, s.cells, m, c);
    LoneLiberty(g, s.k, b, m, c, q);
  }

  /** The stone is still there, so this was no suicide. */
  lemma NoSuicideHere(g: Geom, s: Position, s1: Position, m: int, q: int, x: Caught)
    requires 0 <= m < |s.cells| && 0 <= q < |s.cells| && m != q && s.toMove > 0 && s.cells[q] > 0
    requires |x.cells| == |s.cells| && Settle(g, s1, m, x).after.cells == s.cells[m := s.toMove][q := OPEN]
    requires x.captured == 0 ==> x.cells == s.cells[m := s.toMove]
    ensures x.captured > 0 && Settle(g, s1, m, x).after.cells == x.cells
  {
    hide HashOf, Alive, Solo, Liberties, Group;
    GroupIsClosed(g.W(), x.cells, m);
    var y := s.cells[m := s.toMove][q := OPEN];
    assert y[m] == s.toMove && y[q] == OPEN && s.cells[m := s.toMove][q] > 0;
  }

  lemma LoneLiberty(g: Geom, k: nat, b: Board, m: int, c: int, q: int)
    requires OnBoard(g, k, b) && 0 <= m < |b| && 0 <= q < |b| && b[m] == c && c > 0 && b[q] > 0 && b[q] != c
    requires Solo(g.W(), b, m, c) && Adjacent(g.W(), q, m)
    requires forall n :: 0 <= n < |b| && Adjacent(g.W(), m, n) && n != q ==> b[n] != OPEN
    ensures var y := b[q := OPEN]; Solo(g.W(), y, m, c) && |Liberties(g.W(), y, Group(g.W(), y, m))| == 1
  {
    hide Group;
    var w, y := g.W(), b[q := OPEN];
    SoloGroup(w, y, m);
    assert Touches(w, {m}, q);
    assert Liberties(w, y, {m}) == {q};
  }

  /** In any game an open point is refused as ko exactly if the last move was a lone stone that took exactly the one stone
      there, of the seat now to move, and has no other liberty. */
  lemma KoRefusesIff(g: Geom, k: nat, koOn: bool, t: Transcript, i: nat, m: int)
    requires IsGame(g, k, koOn, t) && i < |t.run|
    requires 0 <= m < |t.run[i].cells| && t.run[i].cells[m] == OPEN && t.run[i].toMove !in t.run[i].out
    ensures !IsLegal(g, t.run[i], m) <==>
              i > 0 && TookLoneStone(g, t.run[i - 1], t.moves[i - 1], m) && t.run[i - 1].cells[m] == t.run[i].toMove
  {
    hide Play, Start, Remember, HashOf, OnBoard, KoShape, NoDead, TookLoneStone;
    GameIsHealthy(g, k, koOn, t, i);
    if i == 0 {
      NoKoAtStart(g, k, koOn);
    } else {
      GameIsHealthy(g, k, koOn, t, i - 1);
      assert Follows(g, t, i - 1);
      KoAfterMove(g, t.run[i - 1], t.history[i - 1], t.moves[i - 1], m);
    }
  }

  lemma NoKoAtStart(g: Geom, k: nat, koOn: bool)
    requires k > 0
    ensures Start(g, k, koOn).ko == -1
  {
    hide EmptyBoard;
  }

  lemma KoAfterMove(g: Geom, s: Position, h: History, p: int, m: int)
    requires Sound(g, s) && Permitted(g, h, s, p) && p < |s.cells|
    requires var y := Play(g, s, p).after; 0 <= m < |y.cells| && y.cells[m] == OPEN && y.toMove !in y.out
    ensures var y := Play(g, s, p).after;
            !IsLegal(g, y, m) <==> TookLoneStone(g, s, p, m) && s.cells[m] == y.toMove
  {
    hide HashOf, OnBoard, KoShape, Play;
    var y := Play(g, s, p).after;
    if p >= 0 {
      PermittedStone(g, h, s, p);
      KoIsSetIff(g, s, p, m);
      if TookLoneStone(g, s, p, m) { ShapeInside(g.W(), s.cells, p, s.toMove, m); }
      KoCounts(g, s, p);
    } else {
      SittingOutClearsKo(g, s, p);
    }
  }

  lemma PermittedStone(g: Geom, h: History, s: Position, p: int)
    requires s.k > 0 && Permitted(g, h, s, p) && p >= 0
    ensures p < |s.cells| && s.cells[p] == OPEN && s.toMove !in s.out
  {
    hide Play;
  }

  lemma KoCounts(g: Geom, s: Position, p: int)
    requires s.k > 0 && p < |s.cells|
    ensures Play(g, s, p).after.moveNo == s.moveNo + 1
  {
    hide PlaceStone;
  }

  lemma SittingOutClearsKo(g: Geom, s: Position, p: int)
    requires s.k > 0 && p < 0
    ensures Play(g, s, p).after.ko == -1
  {
    hide PlaceStone;
  }
}
