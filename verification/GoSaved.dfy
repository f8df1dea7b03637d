/** A game of three seats in which a capture leaves a dead group on the board for a while. */
module GoSaved {
  import opened GoBoard
  import opened GoRules
  import opened GoCapture
  import opened GoRuns

  /** Seat 2 holds 8 and 15, seat 3 holds 16, seat 1 surrounds them; the last liberty of both is 9. */
  function LastLibertyOfTwo(): (b: Board)
    ensures |b| == 49
  {
    EmptyBoard(5)[8 := 2][15 := 2][16 := 3][17 := 1][22 := 1][23 := 1]
  }

  const MOVES: seq<int> := [17, 8, 16, 22, 15, PASS, 23, PASS, PASS]

  // ----- extending a game by one move -----

  lemma Lengths(g: Geom, k: nat, koOn: bool, t: Transcript)
    requires IsGame(g, k, koOn, t)
    ensures |t.run| == |t.history| == |t.moves| + 1
  {
  }

  lemma GameGrows(g: Geom, k: nat, koOn: bool, t: Transcript, m: int) returns (u: Transcript)
    requires IsGame(g, k, koOn, t)
    requires var s := t.run[|t.moves|]; s.k > 0 && Permitted(g, t.history[|t.moves|], s, m) && m < |s.cells|
    ensures IsGame(g, k, koOn, u) && u.moves == t.moves + [m]
    ensures t.run[|t.moves|].k > 0 && u.run[|u.moves|] == Play(g, t.run[|t.moves|], m).after
  {
    hide Play, Remember, Permitted, Start;
    var n := |t.moves|;
    var s := Play(g, t.run[n], m).after;
    u := Transcript(t.run + [s], t.moves + [m], t.history + [Remember(g, t.history[n], s)]);
    forall i | 0 <= i < |u.moves| ensures Follows(g, u, i) {
      if i < n { assert Follows(g, t, i); }
    }
  }

  /** A stone that leaves every group a liberty takes nothing and stays. */
  lemma {:induction false} NothingCaught(w: nat, m: int, c: int, d: nat, x: Caught)
    requires NoDead(w, x.cells)
    ensures Captures(w, m, c, d, x) == x
  {
    if d > 0 { NothingCaught(w, m, c, d - 1, x); }
  }

  lemma QuietStone(g: Geom, s: Position, m: int)
    requires s.k > 0 && 0 <= m < |s.cells| && s.toMove > 0 && s.toMove !in s.out && NoDead(g.W(), s.cells[m := s.toMove])
    ensures var y := Play(g, s, m).after;
            y.cells == s.cells[m := s.toMove] && y.ko == -1 && y.out == s.out && y.passed == {} && y.timeouts == 0
  {
    hide Captures, NoDead, Alive, HashOf;
    var s1 := s.(timeouts := 0);
    NothingCaught(g.W(), m, s.toMove, 4, Placed(s1, m));
    StoneIsAlive(g.W(), s.cells[m := s.toMove], m);
    PlaceIsSettle(g, s1, m);
  }

  lemma StoneIsAlive(w: nat, b: Board, m: int)
    requires NoDead(w, b) && 0 <= m < |b| && b[m] > 0
    ensures Alive(w, b, m)
  {
  }

  /** Game `t` has reached board `b`; nobody has resigned or timed out, and seat 1 has not passed since the last stone. */
  ghost predicate Drawn(g: Geom, t: Transcript, b: Board) {
    && IsGame(g, 3, false, t)
    && var s := t.run[|t.moves|]; s.cells == b && s.ko == -1 && s.out == {} && 1 !in s.passed && s.timeouts == 0
  }

  function Turn(t: Transcript): int {
    |t.moves| % 3 + 1
  }

  lemma DrawStone(g: Geom, t: Transcript, b: Board, m: int) returns (u: Transcript)
    requires Drawn(g, t, b) && 0 <= m < |b| && b[m] == OPEN && NoDead(g.W(), b[m := Turn(t)])
    ensures Drawn(g, u, b[m := Turn(t)]) && u.moves == t.moves + [m]
  {
    hide Play, NoDead, IsGame;
    Lengths(g, 3, false, t);
    var s := t.run[|t.moves|];
    GameIsHealthy(g, 3, false, t, |t.moves|);
    StoneIsPermitted(g, t.history[|t.moves|], s, m);
    u := GameGrows(g, 3, false, t, m);
    QuietStone(g, s, m);
  }

  lemma StoneIsPermitted(g: Geom, h: History, s: Position, m: int)
    requires s.k > 0 && 0 <= m < |s.cells| && s.cells[m] == OPEN && s.toMove !in s.out && s.ko == -1 && !s.koOn
    ensures Permitted(g, h, s, m)
  {
    hide Play;
  }

  lemma DrawPass(g: Geom, t: Transcript, b: Board) returns (u: Transcript)
    requires Drawn(g, t, b) && Turn(t) != 1
    ensures Drawn(g, u, b) && u.moves == t.moves + [PASS]
  {
    hide NoDead, IsGame, PlaceStone;
    Lengths(g, 3, false, t);
    GameIsHealthy(g, 3, false, t, |t.moves|);
    u := GameGrows(g, 3, false, t, PASS);
  }

  // ----- the position -----

  lemma BesideOpen(w: nat, b: Board, p: int, q: int)
    requires 0 <= p < |b| && b[p] > 0 && 0 <= q < |b| && b[q] == OPEN && Adjacent(w, p, q)
    ensures Alive(w, b, p)
  {
    hide Group;
    GroupIsClosed(w, b, p);
    assert Touches(w, Group(w, b, p), q);
    assert q in Liberties(w, b, Group(w, b, p));
  }

  lemma BesideAlive(w: nat, b: Board, p: int, q: int)
    requires 0 <= p < |b| && 0 <= q < |b| && b[q] == b[p] && Adjacent(w, p, q) && Alive(w, b, q)
    ensures Alive(w, b, p)
  {
    hide Group;
    NeighborJoins(w, b, p, q);
    SameGroup(w, b, p, q);
  }

  /** As long as only some of these stones are there, each can still breathe. */
  lemma SomeOfThem(b: Board)
    requires |b| == 49 && forall i :: 0 <= i < 49 ==> b[i] == EmptyBoard(5)[i] || b[i] == LastLibertyOfTwo()[i]
    requires b[15] > 0 ==> b[8] > 0
    ensures NoDead(7, b)
  {
    hide Alive;
    if b[8] > 0 { BesideOpen(7, b, 8, 9); }
    if b[15] > 0 { BesideAlive(7, b, 15, 8); }
    if b[16] > 0 { BesideOpen(7, b, 16, 9); }
    if b[17] > 0 { BesideOpen(7, b, 17, 10); }
    if b[22] > 0 { BesideOpen(7, b, 22, 29); }
    if b[23] > 0 { BesideOpen(7, b, 23, 24); }
  }

  lemma NoLiberty(w: nat, b: Board, p: int, s: set<int>)
    requires 0 <= p < |b| && p in s && Closed(w, b, s)
    requires forall x, y :: x in s && 0 <= y < |b| && Adjacent(w, x, y) ==> b[y] != OPEN
    ensures !Alive(w, b, p) && Group(w, b, p) <= s
  {
    GroupIsLeast(w, b, p, s);
  }

  /** With 9 taken, two dead groups of different seats touch: one of them stays on the board. */
  lemma OneIsSaved(s: Position)
    requires s.cells == LastLibertyOfTwo() && s.toMove == 1
    ensures !AllTaken(7, s.cells[9 := 1], 9, 1, Captures(7, 9, 1, 4, Placed(s, 9)).cells)
  {
    hide Captures, Group, Alive;
    var b := s.cells[9 := 1];
    NoLiberty(7, b, 8, {8, 15});
    NoLiberty(7, b, 16, {16});
    GroupIsClosed(7, b, 8);
    GroupIsClosed(7, b, 16);
    assert 15 in Group(7, b, 8) by { NeighborJoins(7, b, 8, 15); }
    assert Adjacent(7, 15, 16);
    assert Neighbor(7, 9, 0) == 8 && Neighbor(7, 9, 3) == 16;
    assert Touching(7, GroupAt(7, b, 9, 0), GroupAt(7, b, 9, 3));
    assert DeadAt(7, b, 9, 1, 0) && DeadAt(7, b, 9, 1, 3);
    AllTakenIff(7, 9, 1, Placed(s, 9));
  }

  lemma DrawnGame(g: Geom) returns (t: Transcript)
    requires g.n == 5
    ensures Drawn(g, t, LastLibertyOfTwo()) && t.moves == MOVES
  {
    hide NoDead, Drawn;
    var b := EmptyBoard(5);
    t := FirstPosition(g);
    SomeOfThem(b[17 := 1]);
    t := DrawStone(g, t, b, 17);
    b := b[17 := 1];
    SomeOfThem(b[8 := 2]);
    t := DrawStone(g, t, b, 8);
    b := b[8 := 2];
    SomeOfThem(b[16 := 3]);
    t := DrawStone(g, t, b, 16);
    b := b[16 := 3];
    SomeOfThem(b[22 := 1]);
    t := DrawStone(g, t, b, 22);
    b := b[22 := 1];
    SomeOfThem(b[15 := 2]);
    t := DrawStone(g, t, b, 15);
    b := b[15 := 2];
    t := DrawPass(g, t, b);
    SomeOfThem(b[23 := 1]);
    t := DrawStone(g, t, b, 23);
    b := b[23 := 1];
    t := DrawPass(g, t, b);
    t := DrawPass(g, t, b);
    assert b == LastLibertyOfTwo();
  }

  lemma FirstPosition(g: Geom) returns (t: Transcript)
    requires g.n == 5
    ensures Drawn(g, t, EmptyBoard(5)) && t.moves == []
  {
    hide Remember;
    var s := Start(g, 3, false);
    t := Transcript([s], [], [Remember(g, map[], s)]);
  }

  /** Reached by play: every group alive, the game not over, and yet the next stone, a permitted one, takes only one of the
      two groups it leaves without a liberty. */
  lemma DeadGroupCanStay(g: Geom) returns (t: Transcript)
    requires g.n == 5
    ensures IsGame(g, 3, false, t) && t.moves == MOVES
    ensures var s := t.run[|MOVES|];
            && s.k == 3 && s.toMove == 1 && !Terminal(g, s) && NoDead(7, s.cells)
            && 9 < |s.cells| && Permitted(g, t.history[|MOVES|], s, 9)
            && !AllTaken(7, s.cells[9 := 1], 9, 1, Captures(7, 9, 1, 4, Placed(s, 9)).cells)
  {
    hide NoDead, Captures, AllTaken, IsGame;
    t := DrawnGame(g);
    Lengths(g, 3, false, t);
    var s := t.run[|MOVES|];
    GameIsHealthy(g, 3, false, t, |t.moves|);
    StoneIsPermitted(g, t.history[|MOVES|], s, 9);
    OneIsSaved(s);
  }
}
