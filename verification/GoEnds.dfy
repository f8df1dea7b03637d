/** When a game is over, told from its moves alone: who placed, passed, resigned or timed out, and in which order. */
module GoEnds {
  import opened GoBoard
  import opened GoRules
  import opened GoRuns

  /** The seat whose move number `j` is: the seats take turns. */
  function SeatAt(k: nat, j: nat): nat
    requires k > 0
  {
    j % k + 1
  }

  /** Seat `q` resigned in one of the first `i` moves. */
  predicate HasResigned(k: nat, moves: seq<int>, i: nat, q: nat)
    requires k > 0 && i <= |moves|
  {
    exists j :: 0 <= j < i && SeatAt(k, j) == q && moves[j] == RESIGN
  }

  /** Seat `q` passed in one of the first `i` moves, and no stone was placed since. */
  predicate HasPassed(k: nat, moves: seq<int>, i: nat, q: nat)
    requires k > 0 && i <= |moves|
  {
    exists j :: 0 <= j < i && SeatAt(k, j) == q && moves[j] == PASS && NoStone(moves, j, i)
  }

  predicate NoStone(moves: seq<int>, from: nat, to: nat)
    requires to <= |moves|
  {
    forall l :: from <= l < to ==> moves[l] < 0
  }

  /** Move `j` was made by a seat that had not resigned before. */
  predicate StillIn(k: nat, moves: seq<int>, j: nat)
    requires k > 0 && j <= |moves|
  {
    !HasResigned(k, moves, j, SeatAt(k, j))
  }

  /** Among the first `i` moves, the timeouts of seats still in after the last other move of a seat still in. */
  function TimedOut(k: nat, moves: seq<int>, i: nat): set<nat>
    requires k > 0 && i <= |moves|
  {
    set j: nat | j < i && moves[j] == TIMEOUT && StillIn(k, moves, j) && OnlyTimeouts(k, moves, j, i)
  }

  predicate OnlyTimeouts(k: nat, moves: seq<int>, from: nat, to: nat)
    requires k > 0 && to <= |moves|
  {
    forall l :: from <= l < to && StillIn(k, moves, l) ==> moves[l] == TIMEOUT
  }

  function SeatsIn(k: nat, moves: seq<int>, i: nat): set<nat>
    requires k > 0 && i <= |moves|
  {
    set q: nat | 1 <= q <= k && !HasResigned(k, moves, i, q)
  }

  /** After `i` moves on a board of `n` by `n` the game is over: the move cap is reached, or every seat has resigned or
      passed since the last stone, or there were timeouts only, at least one for each seat still in. */
  predicate Over(n: nat, k: nat, moves: seq<int>, i: nat)
    requires k > 0 && i <= |moves|
  {
    || i >= 3 * n * n
    || (forall q: nat :: 1 <= q <= k ==> HasResigned(k, moves, i, q) || HasPassed(k, moves, i, q))
    || (|TimedOut(k, moves, i)| >= 1 && |TimedOut(k, moves, i)| >= |SeatsIn(k, moves, i)|)
  }

  // ----- what one more move adds -----

  lemma ResignedNext(k: nat, moves: seq<int>, i: nat, q: nat)
    requires k > 0 && i < |moves|
    ensures HasResigned(k, moves, i + 1, q) <==> HasResigned(k, moves, i, q) || (SeatAt(k, i) == q && moves[i] == RESIGN)
  {
  }

  lemma PassedNext(k: nat, moves: seq<int>, i: nat, q: nat)
    requires k > 0 && i < |moves|
    ensures HasPassed(k, moves, i + 1, q) <==> moves[i] < 0 && (HasPassed(k, moves, i, q) || (SeatAt(k, i) == q && moves[i] == PASS))
  {
    if moves[i] < 0 && HasPassed(k, moves, i, q) {
      var j :| 0 <= j < i && SeatAt(k, j) == q && moves[j] == PASS && NoStone(moves, j, i);
      assert NoStone(moves, j, i + 1);
    }
    if moves[i] == PASS && SeatAt(k, i) == q { assert NoStone(moves, i, i + 1); }
    if HasPassed(k, moves, i + 1, q) {
      var j :| 0 <= j < i + 1 && SeatAt(k, j) == q && moves[j] == PASS && NoStone(moves, j, i + 1);
      assert moves[i] < 0;
      if j < i { assert NoStone(moves, j, i); }
    }
  }

  lemma TimedOutNext(k: nat, moves: seq<int>, i: nat)
    requires k > 0 && i < |moves|
    ensures TimedOut(k, moves, i + 1) ==
              if !StillIn(k, moves, i) then TimedOut(k, moves, i)
              else if moves[i] == TIMEOUT then TimedOut(k, moves, i) + {i}
              else {}
  {
    hide StillIn;
    forall j: nat | j < i
      ensures OnlyTimeouts(k, moves, j, i + 1) <==> OnlyTimeouts(k, moves, j, i) && (StillIn(k, moves, i) ==> moves[i] == TIMEOUT)
    {
    }
    if StillIn(k, moves, i) && moves[i] == TIMEOUT { assert OnlyTimeouts(k, moves, i, i + 1); }
  }

  // ----- the program's bookkeeping -----

  /** The resigned seats, the passes and the timeouts the program keeps are what the moves amount to. A resigned seat's passes
      are of no account, since it counts as resigned. */
  ghost predicate KeepsBooks(k: nat, moves: seq<int>, i: nat, s: Position)
    requires k > 0 && i <= |moves|
  {
    && (forall q :: q in s.out <==> HasResigned(k, moves, i, q))
    && (forall q :: q !in s.out ==> (q in s.passed <==> HasPassed(k, moves, i, q)))
    && s.timeouts == |TimedOut(k, moves, i)|
  }

  lemma BooksStart(g: Geom, k: nat, koOn: bool, moves: seq<int>)
    requires k > 0
    ensures KeepsBooks(k, moves, 0, Start(g, k, koOn))
  {
    hide EmptyBoard;
    assert TimedOut(k, moves, 0) == {};
  }

  /** What a move does to the books. */
  lemma MoveBooks(g: Geom, s: Position, m: int)
    requires s.k > 0 && m < |s.cells| && (m >= 0 ==> s.toMove !in s.out)
    ensures var y, c := Play(g, s, m).after, s.toMove;
            && y.out == (if m == RESIGN then s.out + {c} else s.out)
            && y.timeouts == (if c in s.out then s.timeouts else if m == TIMEOUT then s.timeouts + 1 else 0)
            && (m >= 0 ==> y.passed == {})
            && (m < 0 ==> forall q :: q != c ==> (q in y.passed <==> q in s.passed))
            && (m < 0 && c !in s.out ==> (c in y.passed <==> c in s.passed || (m != RESIGN && m != TIMEOUT)))
  {
    hide PlaceStone;
    if m >= 0 { StoneBooks(g, s.(timeouts := 0), m); }
  }

  lemma StoneBooks(g: Geom, s: Position, m: int)
    requires 0 <= m < |s.cells|
    ensures var y := PlaceStone(g, s, m).after; y.passed == {} && y.out == s.out && y.timeouts == s.timeouts
  {
    hide Captures, HashOf, Group, Alive, Solo, Liberties, Cleared;
    PlaceIsSettle(g, s, m);
  }

  lemma BooksKept(g: Geom, k: nat, moves: seq<int>, i: nat, s: Position)
    requires k > 0 && s.k == k && i < |moves| && KeepsBooks(k, moves, i, s) && s.toMove == SeatAt(k, i)
    requires moves[i] < |s.cells| && (moves[i] >= 0 ==> s.toMove !in s.out)
    requires moves[i] < 0 ==> moves[i] in {PASS, RESIGN, TIMEOUT}
    ensures KeepsBooks(k, moves, i + 1, Play(g, s, moves[i]).after)
  {
    hide Play, HasResigned, HasPassed, TimedOut;
    MoveBooks(g, s, moves[i]);
    TimedOutNext(k, moves, i);
    StillInIff(k, moves, i);
    TimedOutBelow(k, moves, i);
    var y := Play(g, s, moves[i]).after;
    forall q ensures q in y.out <==> HasResigned(k, moves, i + 1, q) { if q >= 0 { ResignedNext(k, moves, i, q); } }
    forall q | q !in y.out ensures q in y.passed <==> HasPassed(k, moves, i + 1, q) { PassedNext(k, moves, i, q); }
  }

  lemma StillInIff(k: nat, moves: seq<int>, i: nat)
    requires k > 0 && i < |moves|
    ensures StillIn(k, moves, i) <==> !HasResigned(k, moves, i, SeatAt(k, i))
  {
  }

  lemma TimedOutBelow(k: nat, moves: seq<int>, i: nat)
    requires k > 0 && i <= |moves|
    ensures i !in TimedOut(k, moves, i)
  {
  }

  /** A move of a game: a stone only of a seat still in, otherwise a pass, a resignation or a timeout. */
  lemma PermittedKinds(g: Geom, h: History, s: Position, m: int)
    requires s.k > 0 && Permitted(g, h, s, m)
    ensures m >= 0 ==> s.toMove !in s.out
    ensures m < 0 ==> m in {PASS, RESIGN, TIMEOUT}
  {
    hide Play;
  }

  lemma {:induction false} GameKeepsBooks(g: Geom, k: nat, koOn: bool, t: Transcript, i: nat)
    requires IsGame(g, k, koOn, t) && i <= |t.moves|
    ensures k > 0 && i < |t.run| && KeepsBooks(k, t.moves, i, t.run[i])
  {
    hide Play, Permitted, KeepsBooks, Start;
    if i == 0 {
      BooksStart(g, k, koOn, t.moves);
    } else {
      GameKeepsBooks(g, k, koOn, t, i - 1);
      GameIsHealthy(g, k, koOn, t, i - 1);
      assert Follows(g, t, i - 1);
      PermittedKinds(g, t.history[i - 1], t.run[i - 1], t.moves[i - 1]);
      BooksKept(g, k, t.moves, i - 1, t.run[i - 1]);
    }
  }

  lemma SameSeatsIn(k: nat, moves: seq<int>, i: nat, s: Position)
    requires k > 0 && s.k == k && i <= |moves| && KeepsBooks(k, moves, i, s)
    ensures ActiveCount(s.k, s.out) == |SeatsIn(k, moves, i)|
  {
    hide HasResigned, HasPassed, TimedOut;
    assert (set q: nat | 1 <= q <= s.k && q !in s.out) == SeatsIn(k, moves, i);
  }

  lemma AllDoneIff(k: nat, moves: seq<int>, i: nat, s: Position)
    requires k > 0 && s.k == k && i <= |moves| && KeepsBooks(k, moves, i, s)
    ensures (forall q: nat :: 1 <= q <= s.k ==> q in s.passed || q in s.out)
            <==> forall q: nat :: 1 <= q <= k ==> HasResigned(k, moves, i, q) || HasPassed(k, moves, i, q)
  {
    hide HasResigned, HasPassed, TimedOut;
  }

  /** A position of a game counts as over exactly if its moves say so. */
  lemma TerminalIffOver(g: Geom, k: nat, koOn: bool, t: Transcript, i: nat)
    requires IsGame(g, k, koOn, t) && i <= |t.moves|
    ensures k > 0 && i < |t.run| && (Terminal(g, t.run[i]) <==> Over(g.n, k, t.moves, i))
  {
    hide Play, Start, HasResigned, HasPassed, TimedOut, Follows, ActiveCount, SeatsIn, KeepsBooks;
    GameKeepsBooks(g, k, koOn, t, i);
    GameIsHealthy(g, k, koOn, t, i);
    SameSeatsIn(k, t.moves, i, t.run[i]);
    AllDoneIff(k, t.moves, i, t.run[i]);
    SameTimeouts(k, t.moves, i, t.run[i]);
  }

  lemma SameTimeouts(k: nat, moves: seq<int>, i: nat, s: Position)
    requires k > 0 && i <= |moves| && KeepsBooks(k, moves, i, s)
    ensures s.timeouts == |TimedOut(k, moves, i)|
  {
    hide HasResigned, HasPassed, TimedOut;
  }
}
