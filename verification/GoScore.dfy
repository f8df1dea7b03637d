/** What the score counts: an open point belongs to the only seat whose stones border its region. */
module GoScore {
  import opened Arithmetic
  import opened GoBoard
  import opened GoFill
  import opened GoRules
  import opened GoStones

  ghost predicate Bordering(w: nat, b: Board, s: set<int>, v: int) {
    v > 0 && exists x, y :: x in s && 0 <= y < |b| && Adjacent(w, x, y) && b[y] == v
  }

  /** The region of `p` borders stones of `o` and of nobody else. */
  ghost predicate Owned(w: nat, b: Board, p: int, o: int)
    requires 0 <= p < |b|
  {
    forall v :: Bordering(w, b, Group(w, b, p), v) <==> v == o
  }

  ghost function Territory(w: nat, b: Board, o: int): set<int> {
    set p | 0 <= p < |b| && b[p] == OPEN && Owned(w, b, p, o)
  }

  ghost predicate Neutral(w: nat, b: Board, p: int)
    requires 0 <= p < |b|
  {
    b[p] == OPEN && forall o :: !Owned(w, b, p, o)
  }

  // ----- a region's border, as the fill collects it -----

  /** `mask` holds the colours next to the cells done and to the first `d` neighbours of `now`. */
  ghost predicate Bordered(w: nat, b: Board, p: int, done: set<int>, mask: set<int>, now: int, d: nat)
    requires 0 <= p < |b|
  {
    && (forall v <- mask :: Bordering(w, b, Group(w, b, p), v))
    && (forall x, y :: x in done && 0 <= y < |b| && Adjacent(w, x, y) && b[y] > 0 ==> b[y] in mask)
    && (forall e: nat {:trigger Neighbor(w, now, e)} :: e < d && 0 <= Neighbor(w, now, e) < |b| && b[Neighbor(w, now, e)] > 0 ==>
                                                          b[Neighbor(w, now, e)] in mask)
  }

  lemma BorderStarts(w: nat, b: Board, p: int)
    requires 0 <= p < |b|
    ensures Bordered(w, b, p, {}, {}, -1, 0)
  {
  }

  lemma BorderSeen(w: nat, b: Board, p: int, done: set<int>, mask: set<int>, now: int, d: nat, n: int)
    requires 0 <= p < |b| && Bordered(w, b, p, done, mask, now, d) && now in Group(w, b, p)
    requires d < 4 && n == Neighbor(w, now, d) && 0 <= n < |b|
    ensures Bordered(w, b, p, done, if b[n] > 0 then mask + {b[n]} else mask, now, d + 1)
  {
    hide Group;
    assert Adjacent(w, now, n);
  }

  lemma BorderDone(w: nat, b: Board, p: int, done: set<int>, mask: set<int>, now: int)
    requires 0 <= p < |b| && Bordered(w, b, p, done, mask, now, 4)
    ensures Bordered(w, b, p, done + {now}, mask, -1, 0)
  {
    hide Group;
    forall x, y | x in done + {now} && 0 <= y < |b| && Adjacent(w, x, y) && b[y] > 0 ensures b[y] in mask {
      if x == now { NeighborsAre(w, x, y); }
    }
  }

  lemma BorderNext(w: nat, b: Board, p: int, done: set<int>, mask: set<int>, now: int)
    requires 0 <= p < |b| && Bordered(w, b, p, done, mask, -1, 0)
    ensures Bordered(w, b, p, done, mask, now, 0)
  {
  }

  /** A whole region done: its owner, if any, is the one colour collected. */
  lemma RegionOwner(w: nat, b: Board, p: int, mask: set<int>, q: int, o: int)
    requires 0 <= p < |b| && Bordered(w, b, p, Group(w, b, p), mask, -1, 0) && q in Group(w, b, p)
    ensures 0 <= q < |b| && (Owned(w, b, q, o) <==> mask == {o})
  {
    hide Group;
    SameGroup(w, b, p, q);
    SameCells(w, b, p, q);
    forall v ensures v in mask <==> Bordering(w, b, Group(w, b, p), v) {}
    if Owned(w, b, q, o) {
      forall v ensures v in mask <==> v == o { assert Bordering(w, b, Group(w, b, q), v) <==> v == o; }
      assert mask == {o};
    }
  }

  lemma SameCells(w: nat, b: Board, p: int, q: int)
    requires 0 <= p < |b| && q in Group(w, b, p)
    ensures 0 <= q < |b| && b[q] == b[p]
  {
  }

  /** Counted so far: the points of `seen` that belong to `o`. */
  ghost predicate Counts(w: nat, b: Board, seen: set<int>, o: int, n: int) {
    n == |seen * Territory(w, b, o)|
  }

  lemma RegionCounted(w: nat, b: Board, seen: set<int>, p: int, mask: set<int>, o: int, n: int)
    requires 0 <= p < |b| && b[p] == OPEN && Bordered(w, b, p, Group(w, b, p), mask, -1, 0)
    requires Counts(w, b, seen, o, n) && seen !! Group(w, b, p)
    ensures Counts(w, b, seen + Group(w, b, p), o, if mask == {o} then n + |Group(w, b, p)| else n)
  {
    hide Group, Owned;
    var grp, own := Group(w, b, p), Territory(w, b, o);
    forall q | q in grp ensures q in own <==> mask == {o} {
      RegionOwner(w, b, p, mask, q, o);
      SameCells(w, b, p, q);
    }
    assert (seen + grp) * own == seen * own + grp * own;
    assert grp * own == if mask == {o} then grp else {};
  }

  // ----- the points of the board -----

  /** Walls are exactly around the points. */
  predicate Walled(n: nat, b: Board) {
    |b| == (n + 2) * (n + 2) && forall i :: 0 <= i < |b| ==> (b[i] != WALL <==> IsPoint(n, i))
  }

  function Points(n: nat, rows: nat): set<int> {
    set i | 0 <= i < (n + 2) * (n + 2) && IsPoint(n, i) && i / (n + 2) <= rows
  }

  /** The `n` numbers from `a` on. */
  function Interval(a: int, n: nat): (s: set<int>)
    ensures |s| == n
    ensures forall i :: i in s <==> a <= i < a + n
  {
    if n == 0 then {} else Interval(a, n - 1) + {a + n - 1}
  }

  function Row(n: nat, y: nat): set<int> {
    Interval(y * (n + 2) + 1, n)
  }

  lemma RowIs(n: nat, y: nat, i: int)
    requires 1 <= y <= n
    ensures i in Row(n, y) <==> 0 <= i < (n + 2) * (n + 2) && IsPoint(n, i) && i / (n + 2) == y
  {
    Divided(n + 2, i, y);
    MulGrows(y, n, n + 2);
    MulGrows(0, y, n + 2);
    OneLess(n + 2, n + 2);
    OneLess(n + 1, n + 2);
  }

  lemma PointsGrow(n: nat, rows: nat)
    requires 1 <= rows <= n
    ensures Points(n, rows) == Points(n, rows - 1) + Row(n, rows) && Points(n, rows - 1) !! Row(n, rows)
  {
    hide Row, IsPoint;
    forall i ensures i in Points(n, rows) <==> i in Points(n, rows - 1) || i in Row(n, rows) { RowIs(n, rows, i); }
    forall i | i in Row(n, rows) ensures i !in Points(n, rows - 1) { RowIs(n, rows, i); }
  }

  lemma {:induction false} PointsCount(n: nat, rows: nat)
    requires rows <= n
    ensures |Points(n, rows)| == rows * n
  {
    if rows == 0 {
      assert Points(n, 0) == {};
    } else {
      hide Points;
      PointsCount(n, rows - 1);
      PointsGrow(n, rows);
      assert rows * n == (rows - 1) * n + n;
    }
  }
  // ----- everything is counted once -----

  ghost function TerritorySum(w: nat, b: Board, k: nat): nat {
    if k == 0 then 0 else TerritorySum(w, b, k - 1) + |Territory(w, b, k)|
  }

  ghost predicate OwnedBySeat(w: nat, b: Board, p: int, k: nat)
    requires 0 <= p < |b|
  {
    exists o :: 1 <= o <= k && Owned(w, b, p, o)
  }

  ghost function OwnedPoints(w: nat, b: Board, k: nat): set<int> {
    set p | 0 <= p < |b| && b[p] == OPEN && OwnedBySeat(w, b, p, k)
  }

  ghost function NeutralPoints(w: nat, b: Board): set<int> {
    set p | 0 <= p < |b| && Neutral(w, b, p)
  }

  lemma OneOwner(w: nat, b: Board, p: int, o: int, q: int)
    requires 0 <= p < |b| && Owned(w, b, p, o) && Owned(w, b, p, q)
    ensures o == q && o > 0
  {
    hide Group;
    assert Bordering(w, b, Group(w, b, p), o);
  }

  lemma {:induction false} SumIsOwned(w: nat, b: Board, k: nat)
    ensures TerritorySum(w, b, k) == |OwnedPoints(w, b, k)|
  {
    hide Owned;
    if k == 0 {
      assert OwnedPoints(w, b, 0) == {};
    } else {
      SumIsOwned(w, b, k - 1);
      forall p | p in Territory(w, b, k) ensures p !in OwnedPoints(w, b, k - 1) {
        if o :| 1 <= o <= k - 1 && Owned(w, b, p, o) { OneOwner(w, b, p, o, k); }
      }
      assert OwnedPoints(w, b, k) == OwnedPoints(w, b, k - 1) + Territory(w, b, k);
    }
  }

  /** Territories of all seats, neutral points and stones add up to the points of the board. */
  lemma EveryPointCountsOnce(g: Geom, s: Position)
    requires Sound(g, s) && Walled(g.n, s.cells)
    ensures TerritorySum(g.W(), s.cells, s.k) + |NeutralPoints(g.W(), s.cells)| + |AllStones(s.cells)| == g.n * g.n
  {
    hide Owned, HashOf, IsPoint;
    var w, b, k := g.W(), s.cells, s.k;
    SumIsOwned(w, b, k);
    PointsCount(g.n, g.n);
    var owned, neutral, stones := OwnedPoints(w, b, k), NeutralPoints(w, b), AllStones(b);
    forall p | 0 <= p < |b| && b[p] == OPEN ensures p in owned <==> p !in neutral {
      if o :| Owned(w, b, p, o) { OwnerIsSeat(g, s, p, o); }
    }
    AllPoints(g.n, b);
    assert Points(g.n, g.n) == owned + neutral + stones;
  }

  lemma AllPoints(n: nat, b: Board)
    requires Walled(n, b)
    ensures forall i :: i in Points(n, n) <==> 0 <= i < |b| && b[i] != WALL
  {
  }

  lemma OwnerIsSeat(g: Geom, s: Position, p: int, o: int)
    requires Sound(g, s) && 0 <= p < |s.cells| && Owned(g.W(), s.cells, p, o)
    ensures 1 <= o <= s.k
  {
    hide Group, HashOf;
    assert Bordering(g.W(), s.cells, Group(g.W(), s.cells, p), o);
  }
  // ----- the tally -----

  /** The owner shown for a cell: a seat exactly if the cell is that seat's territory, 0 if it is nobody's. */
  ghost predicate Shown(w: nat, b: Board, i: int, owner: int) {
    owner >= 0 && forall o: nat :: o > 0 ==> (owner == o <==> i in Territory(w, b, o))
  }

  /** Every open cell below `i` has been seen, and regions only as a whole. */
  ghost predicate Visited(w: nat, b: Board, i: int, seen: set<int>) {
    && (forall q :: 0 <= q < i && q < |b| && b[q] == OPEN ==> q in seen)
    && (forall q <- seen :: 0 <= q < |b| && b[q] == OPEN && Group(w, b, q) <= seen)
  }

  ghost predicate Tallied(w: nat, b: Board, seen: set<int>, territory: seq<int>) {
    |territory| == MAX_PLAYERS + 1 && forall o :: 0 <= o <= MAX_PLAYERS ==> Counts(w, b, seen, o, territory[o])
  }

  /** Seen cells show their owner, the others show none yet. */
  ghost predicate OwnersShown(w: nat, b: Board, seen: set<int>, owner: seq<int>) {
    |owner| <= |b| && forall i :: 0 <= i < |owner| ==> if i in seen then Shown(w, b, i, owner[i]) else owner[i] == 0
  }

  lemma NothingScored(w: nat, b: Board, territory: seq<int>, owner: seq<int>)
    requires |territory| == MAX_PLAYERS + 1 && forall o :: 0 <= o <= MAX_PLAYERS ==> territory[o] == 0
    requires |owner| <= |b| && forall i :: 0 <= i < |owner| ==> owner[i] == 0
    ensures Visited(w, b, 0, {}) && Tallied(w, b, {}, territory) && OwnersShown(w, b, {}, owner)
  {
    hide Group, Owned, Territory;
    forall o | 0 <= o <= MAX_PLAYERS ensures Counts(w, b, {}, o, territory[o]) {
      assert {} * Territory(w, b, o) == {};
    }
  }

  lemma NewRegion(w: nat, b: Board, p: int, seen: set<int>)
    requires 0 <= p < |b| && b[p] == OPEN && p !in seen && Visited(w, b, p, seen)
    ensures p in Group(w, b, p) && seen !! Group(w, b, p) && Visited(w, b, p, seen + Group(w, b, p))
  {
    hide Group;
    GroupIsClosed(w, b, p);
    forall q | q in Group(w, b, p) ensures 0 <= q < |b| && b[q] == OPEN && Group(w, b, q) == Group(w, b, p) {
      SameCells(w, b, p, q);
      SameGroup(w, b, p, q);
    }
    forall q | q in seen ensures q !in Group(w, b, p) {
      assert Group(w, b, q) <= seen;
    }
  }

  lemma VisitedMore(w: nat, b: Board, p: int, seen: set<int>)
    requires 0 <= p < |b| && Visited(w, b, p, seen) && (b[p] == OPEN ==> p in seen)
    ensures Visited(w, b, p + 1, seen)
  {
    hide Group;
  }

  lemma OnlyOne(mask: set<int>, o: int)
    requires |mask| == 1 && o in mask
    ensures mask == {o}
  {
    assert |mask - {o}| == 0;
    assert mask == {o} + (mask - {o});
  }

  lemma MaskIsSeat(g: Geom, k: nat, b: Board, p: int, mask: set<int>, o: int)
    requires OnBoard(g, k, b) && 0 <= p < |b| && Bordered(g.W(), b, p, Group(g.W(), b, p), mask, -1, 0) && o in mask
    ensures 1 <= o <= k
  {
    hide Group;
    assert Bordering(g.W(), b, Group(g.W(), b, p), o);
  }

  lemma RegionInBounds(w: nat, b: Board, p: int)
    requires 0 <= p < |b|
    ensures forall q <- Group(w, b, p) :: 0 <= q < |b|
  {
  }

  lemma RegionTallied(w: nat, b: Board, seen: set<int>, p: int, mask: set<int>, before: seq<int>, after: seq<int>)
    requires 0 <= p < |b| && b[p] == OPEN && Bordered(w, b, p, Group(w, b, p), mask, -1, 0)
    requires Tallied(w, b, seen, before) && seen !! Group(w, b, p) && |after| == |before|
    requires forall o :: 0 <= o <= MAX_PLAYERS ==> after[o] == if mask == {o} then before[o] + |Group(w, b, p)| else before[o]
    ensures Tallied(w, b, seen + Group(w, b, p), after)
  {
    hide Group, Bordered, Counts;
    forall o | 0 <= o <= MAX_PLAYERS ensures Counts(w, b, seen + Group(w, b, p), o, after[o]) {
      RegionCounted(w, b, seen, p, mask, o, before[o]);
    }
  }

  lemma RegionShown(w: nat, b: Board, seen: set<int>, p: int, mask: set<int>, before: seq<int>, after: seq<int>)
    requires 0 <= p < |b| && b[p] == OPEN && Bordered(w, b, p, Group(w, b, p), mask, -1, 0)
    requires OwnersShown(w, b, seen, before) && seen !! Group(w, b, p) && |after| == |before|
    requires forall i :: 0 <= i < |after| ==> after[i] == before[i] || (i in Group(w, b, p) && mask == {after[i]} && after[i] > 0)
    requires forall i, o :: 0 <= i < |after| && i in Group(w, b, p) && mask == {o} ==> after[i] == o
    ensures OwnersShown(w, b, seen + Group(w, b, p), after)
  {
    hide Group, Bordered, Territory, Owned;
    forall i | 0 <= i < |after| && i in Group(w, b, p) ensures Shown(w, b, i, after[i]) {
      forall o: nat | o > 0 ensures after[i] == o <==> i in Territory(w, b, o) {
        RegionOwner(w, b, p, mask, i, o);
        SameCells(w, b, p, i);
        InTerritory(w, b, i, o);
      }
    }
  }

  lemma InTerritory(w: nat, b: Board, i: int, o: int)
    requires 0 <= i < |b| && b[i] == OPEN
    ensures i in Territory(w, b, o) <==> Owned(w, b, i, o)
  {
  }

  lemma AllVisited(w: nat, b: Board, seen: set<int>, territory: seq<int>, owner: seq<int>)
    requires Visited(w, b, |b|, seen) && Tallied(w, b, seen, territory) && OwnersShown(w, b, seen, owner)
    ensures forall o :: 0 <= o <= MAX_PLAYERS ==> territory[o] == |Territory(w, b, o)|
    ensures forall i :: 0 <= i < |owner| ==> Shown(w, b, i, owner[i])
  {
    hide Group, Owned;
    forall o | 0 <= o <= MAX_PLAYERS ensures territory[o] == |Territory(w, b, o)| {
      assert Counts(w, b, seen, o, territory[o]);
      assert seen * Territory(w, b, o) == Territory(w, b, o);
    }
  }
}
