/** Positions of an N-player game and what one move makes of them. */
module GoRules {
  import opened GoBoard
  import opened Words

  const MAX_PLAYERS := 8
  const PASS := -1
  const RESIGN := -3
  const TIMEOUT := -4

  /** Board size and the random words of the Zobrist hash, per cell and colour and per seat to move. */
  datatype Geom = Geom(n: nat, zob: (int, int) -> Word, zt: nat -> Word) {
    function W(): nat { n + 2 }
  }

  /** Seats that resigned (`out`) or passed since the last stone (`passed`) are sets; the program keeps them as bits. */
  datatype Position = Position(
    k: nat, cells: Board, losses: seq<int>, toMove: nat, ko: int, koColor: int, koUntil: nat, moveNo: nat,
    hash: Word, koOn: bool, out: set<nat>, passed: set<nat>, timeouts: nat)

  datatype Result = Result(captured: nat, suicide: nat, victims: map<int, nat>)

  predicate OnBoard(g: Geom, k: nat, b: Board) {
    && |b| == g.W() * g.W() && Framed(g.W(), b)
    && forall i :: 0 <= i < |b| ==> b[i] <= k
  }

  ghost predicate Sound(g: Geom, s: Position) {
    && OnBoard(g, s.k, s.cells)
    && 1 <= s.toMove <= s.k <= MAX_PLAYERS && |s.losses| == MAX_PLAYERS + 1
    && s.hash == HashOf(g, s.cells)
  }

  /** The cells of the walled square that are points of the board. */
  predicate IsPoint(n: nat, i: int) {
    1 <= i / (n + 2) <= n && 1 <= i % (n + 2) <= n
  }

  function EmptyBoard(n: nat): Board {
    seq((n + 2) * (n + 2), i => if IsPoint(n, i) then OPEN else WALL)
  }

  function Start(g: Geom, k: nat, koOn: bool): Position {
    Position(k, EmptyBoard(g.n), seq(MAX_PLAYERS + 1, _ => 0), 1, -1, 0, 0, 0, 0, koOn, {}, {}, 0)
  }

  // ----- hash -----

  function Stone(g: Geom, i: int, v: int): Word {
    if v > 0 then g.zob(i, v) else 0
  }

  /** XOR over the stones on the board. */
  function HashOf(g: Geom, b: Board): Word {
    if b == [] then 0 else Xor(HashOf(g, b[..|b| - 1]), Stone(g, |b| - 1, b[|b| - 1]))
  }

  /** Changing one cell changes the hash by the two words. */
  lemma {:induction false} HashUpdate(g: Geom, b: Board, i: nat, v: int)
    requires i < |b|
    ensures HashOf(g, b[i := v]) == Xor(Xor(HashOf(g, b), Stone(g, i, b[i])), Stone(g, i, v))
  {
    hide Xor, Stone;
    var last := |b| - 1;
    var front, back := HashOf(g, b[..last]), Stone(g, last, b[last]);
    if i == last {
      assert b[i := v][..last] == b[..last];
      XorCancel(front, back);
    } else {
      HashUpdate(g, b[..last], i, v);
      assert b[i := v][..last] == b[..last][i := v];
      XorSwap(Xor(front, Stone(g, i, b[i])), Stone(g, i, v), back);
      XorSwap(front, Stone(g, i, b[i]), back);
    }
  }

  function Key(g: Geom, s: Position): Word { Xor(s.hash, g.zt(s.toMove)) }

  // ----- a move -----

  function ActiveCount(k: nat, out: set<nat>): nat {
    |set q: nat | 1 <= q <= k && q !in out|
  }

  predicate Abandoned(s: Position) {
    s.timeouts > 0 && s.timeouts >= ActiveCount(s.k, s.out)
  }

  predicate Terminal(g: Geom, s: Position) {
    || (forall q: nat :: 1 <= q <= s.k ==> q in s.passed || q in s.out)
    || Abandoned(s)
    || s.moveNo >= g.n * g.n * 3
  }

  predicate IsLegal(g: Geom, s: Position, m: int) {
    if m < 0 then m == PASS || m == RESIGN || m == TIMEOUT
    else
      && m < |s.cells| && s.cells[m] == OPEN
      && s.toMove !in s.out
      && !(m == s.ko && s.toMove == s.koColor && s.moveNo < s.koUntil)
  }

  /** The captures of a stone at `m`, some directions into the loop. */
  datatype Caught = Caught(cells: Board, losses: seq<int>, captured: nat, capPt: int, victim: int, victims: map<int, nat>)

  function CountOf(victims: map<int, nat>, v: int): nat {
    if v in victims then victims[v] else 0
  }

  /** An opponent's group without a liberty lies in direction `d` of `m`. */
  ghost predicate DeadAt(w: nat, b: Board, m: int, c: int, d: nat) {
    var n := Neighbor(w, m, d);
    0 <= n < |b| && b[n] > 0 && b[n] != c && !Alive(w, b, n)
  }

  /** Direction `d`: a neighbouring group of another colour without a liberty comes off. */
  ghost function CaptureAt(w: nat, m: int, c: int, d: nat, x: Caught): (r: Caught)
    ensures |r.cells| == |x.cells|
  {
    if DeadAt(w, x.cells, m, c, d) then
      var n := Neighbor(w, m, d);
      var v, grp := x.cells[n], Group(w, x.cells, n);
      Caught(Cleared(x.cells, grp),
             if v < |x.losses| then x.losses[v := x.losses[v] + |grp|] else x.losses,
             x.captured + |grp|, n, v, x.victims[v := CountOf(x.victims, v) + |grp|])
    else x
  }

  /** The first `d` directions, in order. */
  ghost function Captures(w: nat, m: int, c: int, d: nat, x: Caught): (r: Caught)
    ensures |r.cells| == |x.cells|
  {
    if d == 0 then x else CaptureAt(w, m, c, d - 1, Captures(w, m, c, d - 1, x))
  }

  ghost function Placed(s: Position, m: int): Caught
    requires 0 <= m < |s.cells|
  {
    Caught(s.cells[m := s.toMove], s.losses, 0, -1, 0, map[])
  }

  predicate Solo(w: nat, b: Board, m: int, c: int) {
    forall d: nat {:trigger Neighbor(w, m, d)} :: d < 4 && 0 <= Neighbor(w, m, d) < |b| ==> b[Neighbor(w, m, d)] != c
  }

  datatype Played = Played(after: Position, result: Result)

  /** After the captures: suicide if there were none, otherwise the ko they may leave. */
  ghost function Settle(g: Geom, s: Position, m: int, x: Caught): (r: Played)
    requires 0 <= m < |x.cells|
    ensures (r.after.k, r.after.koOn, r.after.toMove, r.after.moveNo, r.after.out) == (s.k, s.koOn, s.toMove, s.moveNo, s.out)
  {
    var w, c, grp := g.W(), s.toMove, Group(g.W(), x.cells, m);
    var s' := s.(cells := x.cells, passed := {}, hash := HashOf(g, x.cells), losses := x.losses, ko := -1);
    if x.captured == 0 && !Alive(w, x.cells, m) then
      var cells := Cleared(x.cells, grp);
      Played(s'.(cells := cells, hash := HashOf(g, cells),
                 losses := if c < |x.losses| then x.losses[c := x.losses[c] + |grp|] else x.losses),
             Result(0, |grp|, x.victims))
    else if s.koOn && x.captured == 1 && Solo(w, x.cells, m, c) && |Liberties(w, x.cells, grp)| == 1 then
      Played(s'.(ko := x.capPt, koColor := x.victim, koUntil := s.moveNo + s.k), Result(1, 0, x.victims))
    else
      Played(s', Result(x.captured, 0, x.victims))
  }

  ghost function PlaceStone(g: Geom, s: Position, m: int): (r: Played)
    requires 0 <= m < |s.cells|
    ensures (r.after.k, r.after.koOn, r.after.toMove, r.after.moveNo, r.after.out) == (s.k, s.koOn, s.toMove, s.moveNo, s.out)
  {
    Settle(g, s, m, Captures(g.W(), m, s.toMove, 4, Placed(s, m)))
  }

  /** One move for the seat to move; a seat that resigned can only pass. */
  ghost function Play(g: Geom, s: Position, move: int): (r: Played)
    requires move < |s.cells| && s.k > 0
    ensures (r.after.k, r.after.koOn, r.after.moveNo, r.after.toMove) == (s.k, s.koOn, s.moveNo + 1, s.toMove % s.k + 1)
  {
    var c := s.toMove;
    var m := if c in s.out && (move >= 0 || move == TIMEOUT) then PASS else move;
    var s1 := s.(timeouts := if m == TIMEOUT then s.timeouts + 1 else if c !in s.out then 0 else s.timeouts);
    var p :=
      if m == TIMEOUT then Played(s1.(ko := -1), Result(0, 0, map[]))
      else if m == RESIGN then Played(s1.(out := s.out + {c}, ko := -1), Result(0, 0, map[]))
      else if m < 0 then Played(s1.(passed := s.passed + {c}, ko := -1), Result(0, 0, map[]))
      else PlaceStone(g, s1, m);
    Played(p.after.(moveNo := s.moveNo + 1, toMove := c % s.k + 1), p.result)
  }
  lemma PlaceIsSettle(g: Geom, s: Position, m: int)
    requires 0 <= m < |s.cells|
    ensures PlaceStone(g, s, m) == Settle(g, s, m, Captures(g.W(), m, s.toMove, 4, Placed(s, m)))
  {
  }

  // ----- what keeps a position sound -----

  lemma ClearedOnBoard(g: Geom, k: nat, b: Board, n: int)
    requires OnBoard(g, k, b) && 0 <= n < |b| && b[n] > 0
    ensures OnBoard(g, k, Cleared(b, Group(g.W(), b, n)))
  {
    ClearedFramed(g.W(), b, n);
  }

  lemma PlacedOnBoard(g: Geom, k: nat, b: Board, m: int, c: int)
    requires OnBoard(g, k, b) && 0 <= m < |b| && b[m] == OPEN && 0 < c <= k
    ensures OnBoard(g, k, b[m := c])
    ensures HashOf(g, b[m := c]) == Xor(HashOf(g, b), g.zob(m, c))
  {
    hide HashOf, Xor;
    HashUpdate(g, b, m, c);
    XorCancel(HashOf(g, b), 0);
  }

  lemma PointHasNeighbors(g: Geom, k: nat, b: Board, m: int, d: nat)
    requires OnBoard(g, k, b) && 0 <= m < |b| && b[m] != WALL && d < 4
    ensures 0 <= Neighbor(g.W(), m, d) < |b|
  {
  }

  /** A group of another colour does not hold the stone at `m`. */
  lemma GroupApart(w: nat, b: Board, n: int, m: int)
    requires 0 <= n < |b| && 0 <= m < |b| && b[n] != b[m]
    ensures m !in Group(w, b, n)
  {
  }

  lemma GroupNotEmpty(w: nat, b: Board, n: int)
    requires 0 <= n < |b|
    ensures |Group(w, b, n)| > 0
  {
    hide Group;
    GroupIsClosed(w, b, n);
  }

  lemma NoneIsEmpty(s: set<int>)
    ensures |s| == 0 <==> s == {}
  {
  }
}
