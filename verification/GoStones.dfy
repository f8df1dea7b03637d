/** Stones are conserved: on the board or among their owner's losses. */
module GoStones {
  import opened GoBoard
  import opened GoRules

  function StonesOf(b: Board, v: int): set<int> {
    set i | 0 <= i < |b| && b[i] == v
  }

  /** All stones on the board, of any seat. */
  function AllStones(b: Board): set<int> {
    set i | 0 <= i < |b| && b[i] > 0
  }

  lemma GroupIsOneColor(w: nat, b: Board, n: int)
    requires 0 <= n < |b|
    ensures Group(w, b, n) <= StonesOf(b, b[n])
    ensures b[n] > 0 ==> Group(w, b, n) <= AllStones(b)
  {
  }

  lemma Removed(a: set<int>, s: set<int>)
    requires s <= a
    ensures |a - s| == |a| - |s|
  {
  }

  /** Taking off a group costs its owner that many stones and nobody else any. */
  lemma ClearedStones(w: nat, b: Board, n: int, v: int)
    requires 0 <= n < |b| && b[n] > 0 && v > 0
    ensures var b', grp := Cleared(b, Group(w, b, n)), Group(w, b, n);
            && |StonesOf(b', v)| == |StonesOf(b, v)| - (if v == b[n] then |grp| else 0)
            && |AllStones(b')| == |AllStones(b)| - |grp|
  {
    hide Group;
    var b', grp := Cleared(b, Group(w, b, n)), Group(w, b, n);
    GroupIsOneColor(w, b, n);
    assert AllStones(b') == AllStones(b) - grp;
    Removed(AllStones(b), grp);
    if v == b[n] {
      assert StonesOf(b', v) == StonesOf(b, v) - grp;
      Removed(StonesOf(b, v), grp);
    } else {
      assert StonesOf(b', v) == StonesOf(b, v);
    }
  }

  /** Seats on the board have a loss counter. */
  predicate Counted(b: Board, losses: seq<int>) {
    forall i :: 0 <= i < |b| ==> b[i] < |losses|
  }

  /** The captures so far: stones and losses of each seat balance, and `victims` tells each seat's part. */
  lemma {:induction false} CapturesBalance(w: nat, m: int, c: int, d: nat, x: Caught, v: nat)
    requires Counted(x.cells, x.losses) && 0 < v < |x.losses| && x.captured == 0 && x.victims == map[]
    ensures var y := Captures(w, m, c, d, x);
            && Counted(y.cells, y.losses) && |y.losses| == |x.losses|
            && |StonesOf(y.cells, v)| + y.losses[v] == |StonesOf(x.cells, v)| + x.losses[v]
            && CountOf(y.victims, v) == y.losses[v] - x.losses[v]
            && y.captured == |AllStones(x.cells)| - |AllStones(y.cells)|
            && c !in y.victims
  {
    hide StonesOf, AllStones, Alive, Group;
    if d > 0 {
      CapturesBalance(w, m, c, d - 1, x, v);
      var y := Captures(w, m, c, d - 1, x);
      if DeadAt(w, y.cells, m, c, d - 1) {
        ClearedStones(w, y.cells, Neighbor(w, m, d - 1), v);
      }
    }
  }

  lemma PlacedStones(b: Board, m: int, c: int, v: int)
    requires 0 <= m < |b| && b[m] == OPEN && c > 0 && v > 0
    ensures |StonesOf(b[m := c], v)| == |StonesOf(b, v)| + (if v == c then 1 else 0)
    ensures |AllStones(b[m := c])| == |AllStones(b)| + 1
  {
    assert AllStones(b[m := c]) == AllStones(b) + {m};
    assert StonesOf(b[m := c], v) == if v == c then StonesOf(b, v) + {m} else StonesOf(b, v);
  }

  predicate Places(s: Position, move: int) {
    move >= 0 && s.toMove !in s.out
  }

  /** Stone conservation: a seat's stones on the board plus its losses grow by the stone it places and by nothing else;
      the result accounts for every loss. */
  lemma PlayConservesStones(g: Geom, s: Position, move: int, v: nat)
    requires Sound(g, s) && move < |s.cells| && 1 <= v <= s.k
    requires Places(s, move) ==> s.cells[move] == OPEN
    ensures var p := Play(g, s, move);
            && |p.after.losses| == |s.losses|
            && |StonesOf(p.after.cells, v)| + p.after.losses[v]
               == |StonesOf(s.cells, v)| + s.losses[v] + (if Places(s, move) && v == s.toMove then 1 else 0)
            && p.after.losses[v] - s.losses[v] == CountOf(p.result.victims, v) + (if v == s.toMove then p.result.suicide else 0)
            && s.toMove !in p.result.victims
  {
    hide Captures, Alive, Group, HashOf, StonesOf, AllStones;
    if Places(s, move) {
      var w, c := g.W(), s.toMove;
      var x := Captures(w, move, c, 4, Placed(s, move));
      PlacedStones(s.cells, move, c, v);
      CapturesBalance(w, move, c, 4, Placed(s, move), v);
      assert Play(g, s, move).result == Settle(g, s.(timeouts := 0), move, x).result;
      if x.captured == 0 && !Alive(w, x.cells, move) {
        StoneStays(w, move, c, 4, Placed(s, move));
        ClearedStones(w, x.cells, move, v);
      }
    }
  }

  lemma {:induction false} StoneStays(w: nat, m: int, c: int, d: nat, x: Caught)
    requires 0 <= m < |x.cells| && x.cells[m] == c
    ensures Captures(w, m, c, d, x).cells[m] == c
  {
    hide Alive, Group;
    if d > 0 {
      StoneStays(w, m, c, d - 1, x);
      var y := Captures(w, m, c, d - 1, x).cells;
      if DeadAt(w, y, m, c, d - 1) { GroupApart(w, y, Neighbor(w, m, d - 1), m); }
    }
  }

  /** `captured` and `suicide` count the stones that left the board, one way or the other. */
  lemma PlayCountsStones(g: Geom, s: Position, m: int)
    requires Sound(g, s) && 0 <= m < |s.cells| && Places(s, m) && s.cells[m] == OPEN
    ensures var p := Play(g, s, m);
            && p.result.captured + p.result.suicide == |AllStones(s.cells)| + 1 - |AllStones(p.after.cells)|
            && (p.result.captured == 0 || p.result.suicide == 0)
  {
    hide Captures, Alive, Group, HashOf, StonesOf, AllStones;
    var w, c := g.W(), s.toMove;
    var x := Captures(w, m, c, 4, Placed(s, m));
    PlacedStones(s.cells, m, c, 1);
    CapturesBalance(w, m, c, 4, Placed(s, m), 1);
    assert Play(g, s, m).result == Settle(g, s.(timeouts := 0), m, x).result;
    if x.captured == 0 && !Alive(w, x.cells, m) {
      StoneStays(w, m, c, 4, Placed(s, m));
      ClearedStones(w, x.cells, m, 1);
    }
  }
}
