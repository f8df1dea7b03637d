/** Ranks of a directed graph by repeated relaxation: the rank of a node is the length of the longest path to it. */
module Layering {
  import opened Finite

  type Id = string

  datatype Edge = Edge(from: Id, to: Id)

  datatype Graph = Graph(ids: seq<Id>, edges: seq<Edge>)

  function IdSet(ids: seq<Id>): set<Id> {
    set id | id in ids
  }

  function Nodes(g: Graph): set<Id> {
    IdSet(g.ids)
  }

  /** Edges from or to elsewhere, and from a node to itself, are passed over. */
  predicate Usable(g: Graph, e: Edge) {
    e.from in g.ids && e.to in g.ids && e.from != e.to
  }

  predicate Linked(g: Graph, a: Id, b: Id) {
    Edge(a, b) in g.edges && Usable(g, Edge(a, b))
  }

  /** A walk along usable edges; it has one node more than edges. */
  predicate IsWalk(g: Graph, p: seq<Id>) {
    && p != [] && p[0] in g.ids
    && forall i :: 0 <= i < |p| - 1 ==> Linked(g, p[i], p[i + 1])
  }

  predicate WalkTo(g: Graph, p: seq<Id>, v: Id) {
    IsWalk(g, p) && p[|p| - 1] == v
  }

  ghost predicate Acyclic(g: Graph) {
    forall p :: IsWalk(g, p) && |p| > 1 ==> p[0] != p[|p| - 1]
  }

  type Ranks = map<Id, nat>

  function RankOf(rank: Ranks, id: Id): nat {
    if id in rank then rank[id] else 0
  }

  /** Every usable edge goes to a larger rank. */
  predicate Settled(g: Graph, rank: Ranks) {
    forall a, b :: a in g.ids && b in g.ids && Linked(g, a, b) ==> RankOf(rank, a) < RankOf(rank, b)
  }

  ghost predicate HasWalk(g: Graph, v: Id, k: nat) {
    exists p :: WalkTo(g, p, v) && |p| == k + 1
  }

  /** Ranks are not too large: each is the length of some walk. */
  ghost predicate Backed(g: Graph, rank: Ranks) {
    forall v <- g.ids :: HasWalk(g, v, RankOf(rank, v))
  }

  /** Ranks are large enough for all walks of at most `t` edges. */
  ghost predicate Covers(g: Graph, rank: Ranks, t: nat) {
    forall p :: IsWalk(g, p) && |p| - 1 <= t ==> |p| - 1 <= RankOf(rank, p[|p| - 1])
  }

  ghost predicate IsLongest(g: Graph, v: Id, k: nat) {
    HasWalk(g, v, k) && forall p :: WalkTo(g, p, v) ==> |p| - 1 <= k
  }

  function Budget(g: Graph): nat {
    3 * |g.ids| + 3
  }

  lemma ZeroBacked(g: Graph, rank: Ranks)
    requires forall v <- g.ids :: RankOf(rank, v) == 0
    ensures Backed(g, rank) && Covers(g, rank, 0)
  {
    forall v | v in g.ids ensures HasWalk(g, v, 0) {
      assert WalkTo(g, [v], v);
    }
  }

  lemma Extend(g: Graph, p: seq<Id>, a: Id, b: Id)
    requires WalkTo(g, p, a) && Linked(g, a, b)
    ensures WalkTo(g, p + [b], b)
  {
    var q := p + [b];
    forall i | 0 <= i < |q| - 1 ensures Linked(g, q[i], q[i + 1]) {
      if i < |p| - 1 { assert Linked(g, p[i], p[i + 1]); }
    }
  }

  lemma RaiseBacked(g: Graph, rank: Ranks, a: Id, b: Id)
    requires Backed(g, rank) && Linked(g, a, b)
    ensures Backed(g, rank[b := RankOf(rank, a) + 1])
  {
    hide IsWalk;
    var p :| WalkTo(g, p, a) && |p| == RankOf(rank, a) + 1;
    Extend(g, p, a, b);
    assert HasWalk(g, b, RankOf(rank, a) + 1);
  }

  /** During one pass: edges already relaxed lift their ends above where their starts were at its beginning. */
  predicate Relaxed(g: Graph, was: Ranks, rank: Ranks, i: nat) {
    && (forall v <- g.ids :: RankOf(was, v) <= RankOf(rank, v))
    && (forall j :: 0 <= j < i && j < |g.edges| && Usable(g, g.edges[j]) ==> RankOf(was, g.edges[j].from) < RankOf(rank, g.edges[j].to))
  }

  /** A whole pass covers walks with one more edge. */
  lemma PassCovers(g: Graph, was: Ranks, rank: Ranks, t: nat)
    requires Covers(g, was, t) && Relaxed(g, was, rank, |g.edges|)
    ensures Covers(g, rank, t + 1)
  {
    forall p | IsWalk(g, p) && |p| - 1 <= t + 1 ensures |p| - 1 <= RankOf(rank, p[|p| - 1]) {
      if |p| > 1 {
        var q := p[..|p| - 1];
        assert IsWalk(g, q) by {
          forall i | 0 <= i < |q| - 1 ensures Linked(g, q[i], q[i + 1]) { assert Linked(g, p[i], p[i + 1]); }
        }
        var k := |p| - 2;
        assert Linked(g, p[k], p[k + 1]);
        var j :| 0 <= j < |g.edges| && g.edges[j] == Edge(p[k], p[k + 1]);
      }
    }
  }

  /** A pass without a change leaves every usable edge going up. */
  lemma QuietSettles(g: Graph, rank: Ranks)
    requires Relaxed(g, rank, rank, |g.edges|)
    ensures Settled(g, rank)
  {
    forall a, b | Linked(g, a, b) ensures RankOf(rank, a) < RankOf(rank, b) {
      var j :| 0 <= j < |g.edges| && g.edges[j] == Edge(a, b);
    }
  }

  method EdgeRanks(g: Graph) returns (rank: Ranks)
    ensures rank.Keys == Nodes(g) && Backed(g, rank)
    ensures Settled(g, rank) || Covers(g, rank, Budget(g))
  {
    hide Backed, Covers, Settled;
    rank := map id | id in g.ids :: 0;
    ZeroBacked(g, rank);
    for pass := 0 to Budget(g)
      invariant rank.Keys == Nodes(g) && Backed(g, rank) && Covers(g, rank, pass)
    {
      var changed := false;
      ghost var was := rank;
      for i := 0 to |g.edges|
        invariant rank.Keys == Nodes(g) && Backed(g, rank)
        invariant Relaxed(g, was, rank, i) && (!changed ==> rank == was)
      {
        var e := g.edges[i];
        if !Usable(g, e) {
          continue;
        }
        var a, b := RankOf(rank, e.from), RankOf(rank, e.to);
        if b < a + 1 {
          RaiseBacked(g, rank, e.from, e.to);
          rank := rank[e.to := a + 1];
          changed := true;
        }
      }
      if !changed {
        QuietSettles(g, rank);
        break;
      }
      PassCovers(g, was, rank, pass);
    }
  }

  // ----- what the ranks mean -----

  lemma {:induction false} RanksRise(g: Graph, rank: Ranks, p: seq<Id>)
    requires Settled(g, rank) && IsWalk(g, p)
    ensures RankOf(rank, p[0]) + |p| - 1 <= RankOf(rank, p[|p| - 1])
  {
    if |p| > 1 {
      var q := p[..|p| - 1];
      assert IsWalk(g, q) by {
        forall i | 0 <= i < |q| - 1 ensures Linked(g, q[i], q[i + 1]) { assert Linked(g, p[i], p[i + 1]); }
      }
      RanksRise(g, rank, q);
      assert Linked(g, p[|p| - 2], p[|p| - 2 + 1]);
    }
  }

  /** A walk along as many edges as there are nodes would close a circle. */
  lemma WalksAreShort(g: Graph, p: seq<Id>)
    requires Acyclic(g) && IsWalk(g, p)
    ensures |p| <= |g.ids|
  {
    forall i, j | 0 <= i < j < |p| ensures p[i] != p[j] {
      var q := p[i..j + 1];
      SubWalk(g, p, i, j);
    }
    forall i | 0 <= i < |p| ensures p[i] in Nodes(g) {
      if i > 0 { assert Linked(g, p[i - 1], p[i - 1 + 1]); }
    }
    DistinctFit(p, Nodes(g));
    NodesAreFew(g.ids);
  }

  lemma SubWalk(g: Graph, p: seq<Id>, i: nat, j: nat)
    requires IsWalk(g, p) && i < j < |p|
    ensures IsWalk(g, p[i..j + 1])
  {
    var q := p[i..j + 1];
    if i > 0 { assert Linked(g, p[i - 1], p[i - 1 + 1]); }
    forall k | 0 <= k < |q| - 1 ensures Linked(g, q[k], q[k + 1]) {
      assert Linked(g, p[i + k], p[i + k + 1]);
    }
  }

  lemma {:induction false} NodesAreFew(ids: seq<Id>)
    ensures |IdSet(ids)| <= |ids|
  {
    if ids == [] {
      assert IdSet(ids) == {};
    } else {
      var front, last := ids[..|ids| - 1], ids[|ids| - 1];
      NodesAreFew(front);
      assert IdSet(ids) == IdSet(front) + {last};
    }
  }

  /** With ranks as computed: they go up along every edge exactly if the graph has no cycle. In particular the pass
      budget is enough for every graph that can be layered at all. */
  lemma SettledIffAcyclic(g: Graph, rank: Ranks)
    requires Backed(g, rank) && (Settled(g, rank) || Covers(g, rank, Budget(g)))
    ensures Settled(g, rank) <==> Acyclic(g)
  {
    if Settled(g, rank) {
      forall p | IsWalk(g, p) && |p| > 1 ensures p[0] != p[|p| - 1] { RanksRise(g, rank, p); }
    } else if Acyclic(g) {
      hide IsWalk, Acyclic, Covers, Backed;
      forall a, b | Linked(g, a, b) ensures RankOf(rank, a) < RankOf(rank, b) { EdgeRises(g, rank, a, b); }
    }
  }

  /** Without a cycle walks are short enough for the budget, so an edge from the end of one makes a longer one. */
  lemma EdgeRises(g: Graph, rank: Ranks, a: Id, b: Id)
    requires Backed(g, rank) && Covers(g, rank, Budget(g)) && Acyclic(g) && Linked(g, a, b)
    ensures RankOf(rank, a) < RankOf(rank, b)
  {
    hide IsWalk, Acyclic;
    assert a in g.ids;
    assert HasWalk(g, a, RankOf(rank, a));
    var p :| WalkTo(g, p, a) && |p| == RankOf(rank, a) + 1;
    WalksAreShort(g, p);
    Extend(g, p, a, b);
    var q := p + [b];
    assert IsWalk(g, q) && q[|q| - 1] == b;
  }

  /** On every acyclic graph each rank is the length of the longest path to its node. */
  lemma RanksAreLongestPaths(g: Graph, rank: Ranks, v: Id)
    requires Backed(g, rank) && (Settled(g, rank) || Covers(g, rank, Budget(g)))
    requires Acyclic(g) && v in g.ids
    ensures IsLongest(g, v, RankOf(rank, v))
  {
    SettledIffAcyclic(g, rank);
    forall p | WalkTo(g, p, v) ensures |p| - 1 <= RankOf(rank, v) { RanksRise(g, rank, p); }
  }

  /** In terms of the edges as given: those between two nodes of the graph all go up exactly if no walk leads back; edges
      from a node to itself, and from or to elsewhere, are of no account. */
  lemma EdgesGoUpIff(g: Graph, rank: Ranks)
    requires Backed(g, rank) && (Settled(g, rank) || Covers(g, rank, Budget(g)))
    ensures (forall e <- g.edges :: e.from in g.ids && e.to in g.ids && e.from != e.to ==> RankOf(rank, e.from) < RankOf(rank, e.to))
            <==> Acyclic(g)
  {
    hide Backed, Covers, Acyclic;
    SettledIffAcyclic(g, rank);
    if Settled(g, rank) {
      forall e | e in g.edges && e.from in g.ids && e.to in g.ids && e.from != e.to ensures RankOf(rank, e.from) < RankOf(rank, e.to) {
        assert e == Edge(e.from, e.to) && Linked(g, e.from, e.to);
      }
    }
  }
}
