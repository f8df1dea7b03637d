/** A walled board as a sequence of cells, and its groups of stones. */
module GoBoard {
  const WALL := -1
  const OPEN := 0

  type Board = seq<int>

  /** The four neighbours of a cell on rows of `w` cells, in the order the engine visits them. */
  function Neighbor(w: nat, i: int, d: int): int {
    if d == 0 then i - 1 else if d == 1 then i + 1 else if d == 2 then i - w else i + w
  }

  predicate Adjacent(w: nat, i: int, j: int) {
    j == i - 1 || j == i + 1 || j == i - w || j == i + w
  }

  /** No cell inside the walls is on the edge, so every neighbour of such a cell exists. */
  predicate Framed(w: nat, b: Board) {
    w > 0 && forall i :: 0 <= i < |b| && b[i] != WALL ==> w <= i < |b| - w && b[i] >= OPEN
  }

  /** With each of its cells, `s` has the neighbours of the same kind. */
  ghost predicate Closed(w: nat, b: Board, s: set<int>) {
    forall x, y :: x in s && 0 <= x < |b| && 0 <= y < |b| && Adjacent(w, x, y) && b[y] == b[x] ==> y in s
  }

  /** `q` is connected to `p` through cells of one kind: no closed set separates them. */
  ghost predicate Joined(w: nat, b: Board, p: int, q: int) {
    forall s: set<int> :: p in s && Closed(w, b, s) ==> q in s
  }

  predicate IsCell(b: Board, i: int) {
    0 <= i < |b|
  }

  function Cells(b: Board): set<int> {
    set i | 0 <= i < |b| && IsCell(b, i)
  }

  /** The connected component of `p`: a group of stones, or an open region. */
  ghost function Group(w: nat, b: Board, p: int): set<int>
    requires 0 <= p < |b|
  {
    set q | 0 <= q < |b| && b[q] == b[p] && Joined(w, b, p, q)
  }

  ghost predicate Touches(w: nat, s: set<int>, n: int) {
    exists x :: x in s && Adjacent(w, x, n)
  }

  ghost function Liberties(w: nat, b: Board, s: set<int>): set<int> {
    set n | 0 <= n < |b| && b[n] == OPEN && Touches(w, s, n)
  }

  /** The board without the stones of `s`. */
  ghost function Cleared(b: Board, s: set<int>): (r: Board)
    ensures |r| == |b|
    ensures forall i :: 0 <= i < |b| ==> r[i] == if i in s then OPEN else b[i]
  {
    seq(|b|, i requires 0 <= i < |b| => if i in s then OPEN else b[i])
  }

  lemma GroupIsClosed(w: nat, b: Board, p: int)
    requires 0 <= p < |b|
    ensures p in Group(w, b, p) && Closed(w, b, Group(w, b, p))
  {
    var g := Group(w, b, p);
    forall x, y | x in g && 0 <= x < |b| && 0 <= y < |b| && Adjacent(w, x, y) && b[y] == b[x]
      ensures y in g
    {
      forall s: set<int> | p in s && Closed(w, b, s) ensures y in s {}
    }
  }

  /** The group is the least closed set around its stone. */
  lemma GroupIsLeast(w: nat, b: Board, p: int, s: set<int>)
    requires 0 <= p < |b| && p in s && Closed(w, b, s)
    ensures Group(w, b, p) <= s
  {
  }

  /** Connection goes both ways: the cells outside a closed set are closed too. */
  lemma JoinedBack(w: nat, b: Board, p: int, q: int)
    requires 0 <= p < |b| && q in Group(w, b, p)
    ensures Joined(w, b, q, p)
  {
    forall s: set<int> | q in s && Closed(w, b, s)
      ensures p in s
    {
      if p !in s {
        var rest := Cells(b) - s;
        assert Closed(w, b, rest);
      }
    }
  }

  lemma SameGroup(w: nat, b: Board, p: int, q: int)
    requires 0 <= p < |b| && q in Group(w, b, p)
    ensures Group(w, b, q) == Group(w, b, p)
  {
    JoinedBack(w, b, p, q);
    GroupIsClosed(w, b, p);
    GroupIsClosed(w, b, q);
    GroupIsLeast(w, b, q, Group(w, b, p));
    GroupIsLeast(w, b, p, Group(w, b, q));
  }

  /** Two groups are the same or share nothing. */
  lemma GroupsDisjoint(w: nat, b: Board, p: int, q: int)
    requires 0 <= p < |b| && 0 <= q < |b| && q !in Group(w, b, p)
    ensures Group(w, b, p) !! Group(w, b, q)
  {
    forall x | x in Group(w, b, p) && x in Group(w, b, q) ensures false {
      SameGroup(w, b, p, x);
      SameGroup(w, b, q, x);
      GroupIsClosed(w, b, q);
    }
  }

  /** Neighbours of one kind are in one group. */
  lemma NeighborJoins(w: nat, b: Board, p: int, q: int)
    requires 0 <= p < |b| && 0 <= q < |b| && Adjacent(w, p, q) && b[p] == b[q]
    ensures q in Group(w, b, p)
  {
    GroupIsClosed(w, b, p);
  }

  // ----- taking a whole group off -----

  lemma ClearedFramed(w: nat, b: Board, p: int)
    requires Framed(w, b) && 0 <= p < |b| && b[p] != WALL
    ensures Framed(w, Cleared(b, Group(w, b, p)))
  {
  }

  /** Taking off one group leaves every other group as it is, with at least the liberties it had. */
  lemma ClearKeepsOthers(w: nat, b: Board, n: int, p: int)
    requires 0 <= n < |b| && 0 <= p < |b| && b[p] != OPEN && p !in Group(w, b, n)
    ensures var b' := Cleared(b, Group(w, b, n));
            && b'[p] == b[p] && Group(w, b', p) == Group(w, b, p)
            && Liberties(w, b, Group(w, b, p)) <= Liberties(w, b', Group(w, b, p))
  {
    var g := Group(w, b, n);
    var b' := Cleared(b, g);
    GroupsDisjoint(w, b, n, p);
    GroupIsClosed(w, b, n);
    GroupIsClosed(w, b, p);
    GroupIsClosed(w, b', p);
    assert Closed(w, b', Group(w, b, p));
    GroupIsLeast(w, b', p, Group(w, b, p));
    assert Closed(w, b, Group(w, b', p)) by {
      forall x, y | x in Group(w, b', p) && 0 <= y < |b| && Adjacent(w, x, y) && b[y] == b[x]
        ensures y in Group(w, b', p)
      {
        assert Adjacent(w, y, x);
      }
    }
    GroupIsLeast(w, b, p, Group(w, b', p));
  }

  // ----- placing a stone -----

  /** A stone placed on an open point leaves every group that it does not join as it is, minus that liberty. */
  lemma PlaceKeepsOthers(w: nat, b: Board, m: int, c: int, p: int)
    requires 0 <= m < |b| && b[m] == OPEN && c > 0
    requires 0 <= p < |b| && b[p] > 0 && m !in Group(w, b[m := c], p)
    ensures Group(w, b[m := c], p) == Group(w, b, p)
    ensures Liberties(w, b[m := c], Group(w, b, p)) == Liberties(w, b, Group(w, b, p)) - {m}
  {
    var b' := b[m := c];
    GroupIsClosed(w, b, p);
    GroupIsClosed(w, b', p);
    assert Closed(w, b, Group(w, b', p));
    GroupIsLeast(w, b, p, Group(w, b', p));
    assert Closed(w, b', Group(w, b, p));
    GroupIsLeast(w, b', p, Group(w, b, p));
  }

  /** A stone of another colour never joins. */
  lemma OtherColorApart(w: nat, b: Board, m: int, c: int, p: int)
    requires 0 <= m < |b| && 0 <= p < |b| && b[p] != c && m != p
    ensures m !in Group(w, b[m := c], p)
  {
  }

  /** Some group without a liberty, of a colour: what must not remain on the board. */
  ghost predicate Alive(w: nat, b: Board, p: int)
    requires 0 <= p < |b|
  {
    Liberties(w, b, Group(w, b, p)) != {}
  }

  /** Every stone's group has a liberty. */
  ghost predicate NoDead(w: nat, b: Board) {
    forall p :: 0 <= p < |b| && b[p] > 0 ==> Alive(w, b, p)
  }
}
