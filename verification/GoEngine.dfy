/** The rules engine: positions kept in arrays, flood fills with an explicit stack and stamped marks. */
module GoEngine {
  import opened Finite
  import opened GoBoard
  import opened GoFill
  import opened GoRules
  import opened GoScore
  import opened GoSuicide
  import opened Words

  const MAX_STAMP := 0x7FFF_FFFF

  lemma MoreActive(out: set<nat>, q: nat)
    requires q >= 1
    ensures |set p: nat | 1 <= p < q + 1 && p !in out| == |set p: nat | 1 <= p < q && p !in out| + (if q in out then 0 else 1)
  {
    var was := set p: nat | 1 <= p < q && p !in out;
    assert (set p: nat | 1 <= p < q + 1 && p !in out) == if q in out then was else was + {q};
  }

  class State {
    const k: nat
    const cells: array<int>
    const losses: array<int>
    var toMove: nat
    var ko: int
    var koColor: int
    var koUntil: nat
    var moveNo: nat
    var hash: Word
    const koOn: bool
    var out: set<nat>
    var passed: set<nat>
    var timeouts: nat

    function Model(): Position
      reads this, cells, losses
    {
      Position(k, cells[..], losses[..], toMove, ko, koColor, koUntil, moveNo, hash, koOn, out, passed, timeouts)
    }

    constructor (g: Geom, k: nat, koOn: bool)
      requires 1 <= k <= MAX_PLAYERS
      ensures Model() == Start(g, k, koOn)
      ensures fresh(cells) && fresh(losses) && cells != losses
    {
      this.k, this.koOn := k, koOn;
      cells := new int[g.W() * g.W()](i => if IsPoint(g.n, i) then OPEN else WALL);
      losses := new int[MAX_PLAYERS + 1](_ => 0);
      toMove, ko, koColor, koUntil, moveNo, hash := 1, -1, 0, 0, 0, 0;
      out, passed, timeouts := {}, {}, 0;
      new;
      assert cells[..] == EmptyBoard(g.n);
      assert losses[..] == seq(MAX_PLAYERS + 1, _ => 0);
    }

    /** An independent copy, to try a move on. */
    constructor Clone(s: State)
      ensures Model() == s.Model() && fresh(cells) && fresh(losses) && cells != losses
    {
      k, koOn := s.k, s.koOn;
      cells := new int[s.cells.Length](i requires 0 <= i < s.cells.Length reads s.cells => s.cells[i]);
      losses := new int[s.losses.Length](i requires 0 <= i < s.losses.Length reads s.losses => s.losses[i]);
      toMove, ko, koColor, koUntil, moveNo, hash := s.toMove, s.ko, s.koColor, s.koUntil, s.moveNo, s.hash;
      out, passed, timeouts := s.out, s.passed, s.timeouts;
      new;
      assert cells[..] == s.cells[..];
      assert losses[..] == s.losses[..];
    }

    /** How many seats have not resigned. */
    method CountActive() returns (n: nat)
      ensures n == ActiveCount(k, out)
    {
      n := 0;
      assert (set q: nat | 1 <= q <= 0 && q !in out) == {};
      for q: nat := 1 to k + 1
        invariant n == |set p: nat | 1 <= p < q && p !in out|
      {
        MoreActive(out, q);
        if q !in out { n := n + 1; }
      }
      assert (set q: nat | 1 <= q <= k && q !in out) == (set p: nat | 1 <= p < k + 1 && p !in out);
    }

    /** Whether the game is over. */
    method IsTerminal(g: Geom) returns (over: bool)
      ensures over == Terminal(g, Model())
    {
      var active := CountActive();
      over := (forall q: nat :: 1 <= q <= k ==> q in passed || q in out) || (timeouts > 0 && timeouts >= active) || moveNo >= g.n * g.n * 3;
    }
  }

  /** Clearing one more cell of a colour: the board and its hash. */
  lemma ClearOne(g: Geom, b: Board, done: set<int>, q: int)
    requires 0 <= q < |b| && b[q] > 0 && q !in done
    ensures var c := Cleared(b, done);
            c[q := OPEN] == Cleared(b, done + {q})
            && HashOf(g, c[q := OPEN]) == Xor(HashOf(g, c), g.zob(q, b[q]))
  {
    hide HashOf, Xor;
    var c := Cleared(b, done);
    assert c[q := OPEN] == Cleared(b, done + {q});
    HashUpdate(g, c, q, OPEN);
    XorCancel(Xor(HashOf(g, c), Stone(g, q, c[q])), 0);
  }

  /** What becomes of the board and the losses when the group at `n` comes off if it is an opponent's and dead. */
  ghost predicate Taken(w: nat, n: int, c: int, b: Board, losses: seq<int>, b': Board, losses': seq<int>, cnt: nat) {
    && 0 <= n < |b| && b[n] < |losses|
    && if b[n] > 0 && b[n] != c && !Alive(w, b, n) then
         && cnt == |Group(w, b, n)| > 0 && b' == Cleared(b, Group(w, b, n))
         && losses' == losses[b[n] := losses[b[n]] + cnt]
       else cnt == 0 && b' == b && losses' == losses
  }

  lemma TakenIsCapture(w: nat, m: int, c: int, d: nat, x: Caught, b': Board, losses': seq<int>, cnt: nat)
    requires 0 <= m < |x.cells| && x.cells[m] == c
    requires Taken(w, Neighbor(w, m, d), c, x.cells, x.losses, b', losses', cnt)
    ensures var n := Neighbor(w, m, d);
            && 0 <= n < |x.cells| && |b'| == |x.cells| && b'[m] == c && (cnt == 0 ==> b' == x.cells && losses' == x.losses)
            && CaptureAt(w, m, c, d, x) ==
               if cnt > 0 then Caught(b', losses', x.captured + cnt, n, x.cells[n], x.victims[x.cells[n] := CountOf(x.victims, x.cells[n]) + cnt])
               else x
  {
    hide Alive, Group;
    if cnt > 0 { GroupApart(w, x.cells, Neighbor(w, m, d), m); }
  }

  /** Scratch space shared by the fills. */
  class Work {
    const g: Geom
    const w := g.W()
    const mark: array<int>
    const lmark: array<int>
    const stack: array<int>
    var stamp: int

    ghost predicate Valid(size: nat)
      reads this, mark, lmark
    {
      && mark != lmark && mark != stack && lmark != stack
      && mark.Length == lmark.Length == stack.Length == size > 0
      && 0 <= stamp < MAX_STAMP
      && (forall i :: 0 <= i < size ==> mark[i] <= stamp && lmark[i] <= stamp)
    }

    constructor (g: Geom)
      ensures Valid(g.W() * g.W()) && this.g == g && fresh(mark) && fresh(lmark) && fresh(stack)
    {
      this.g := g;
      stamp := 0;
      var size := g.W() * g.W();
      mark := new int[size](_ => 0);
      lmark := new int[size](_ => 0);
      stack := new int[size](_ => 0);
    }

    /** A stamp that no mark carries; the marks are wiped when the 32-bit stamp is used up. */
    method Next() returns (st: int)
      requires Valid(mark.Length)
      modifies this`stamp, mark, lmark
      ensures Valid(mark.Length) && st == stamp
      ensures forall i :: 0 <= i < mark.Length ==> mark[i] != st && lmark[i] != st
    {
      stamp := stamp + 1;
      if stamp == MAX_STAMP {
        for i := 0 to mark.Length
          invariant mark.Length == lmark.Length
          invariant forall j :: 0 <= j < i ==> mark[j] == 0 && lmark[j] == 0
        {
          mark[i], lmark[i] := 0, 0;
        }
        stamp := 1;
      }
      st := stamp;
    }

    ghost predicate Marked(st: int, marked: set<int>)
      reads mark
    {
      forall i :: 0 <= i < mark.Length ==> (mark[i] == st <==> i in marked)
    }

    ghost predicate LMarked(st: int, found: set<int>)
      reads lmark
    {
      forall i :: 0 <= i < lmark.Length ==> (lmark[i] == st <==> i in found)
    }

    /** Marks a cell and puts it on the stack. */
    method Push(size: nat, n: int, sp: nat, st: int, ghost marked: set<int>)
      requires Valid(size) && 0 <= n < size && sp < size && st == stamp && Marked(st, marked)
      modifies mark, stack
      ensures Valid(size) && Marked(st, marked + {n})
      ensures stack[..sp + 1] == old(stack[..sp]) + [n]
    {
      mark[n] := st;
      stack[sp] := n;
    }

    /** Looks at the four neighbours of `q` on behalf of a count; `full` means the limit is reached. */
    method Visit(cells: array<int>, p: int, q: int, start: nat, count: nat, limit: nat, ghost b: Board, ghost was: set<int>,
                 ghost done: set<int>, ghost libsBefore: set<int>)
      returns (sp: nat, libs: nat, full: bool, ghost marked: set<int>, ghost found: set<int>)
      requires Valid(cells.Length) && cells != mark && cells != lmark && cells != stack && cells[..] == b
      requires Framed(w, b) && 0 <= p < |b| && b[p] > 0 && start <= stack.Length
      requires Filling(w, b, p, was, done, stack[..start], libsBefore, q, 0)
      requires Marked(stamp, was) && LMarked(stamp, libsBefore)
      requires count == |libsBefore| < limit && q in was && 0 <= q < |b| && b[q] == b[p]
      modifies mark, lmark, stack
      ensures Valid(cells.Length) && sp <= stack.Length
      ensures full ==> libs == limit <= |Liberties(w, b, Group(w, b, p))|
      ensures !full ==> Filling(w, b, p, marked, done, stack[..sp], found, q, 4)
                        && Marked(stamp, marked) && LMarked(stamp, found) && libs == |found| < limit && q in marked
    {
      hide Filling, Group, Liberties, Distinct, Framed, Neighbor, Adjacent;
      sp, libs, full, marked, found := start, count, false, was, libsBefore;
      for d := 0 to 4
        invariant sp <= stack.Length && Valid(cells.Length) && cells[..] == b
        invariant Filling(w, b, p, marked, done, stack[..sp], found, q, d)
        invariant Marked(stamp, marked) && LMarked(stamp, found)
        invariant libs == |found| < limit && q in marked
      {
        NeighborExists(w, b, q, d);
        var n := Neighbor(w, q, d);
        var v := cells[n];
        if v == OPEN {
          if lmark[n] != stamp {
            LibertyFound(w, b, p, marked, done, stack[..sp], found, q, d, n);
            lmark[n] := stamp;
            found := found + {n};
            libs := libs + 1;
            if libs >= limit {
              FoundAreLiberties(w, b, p, marked, done, stack[..sp], found, q, d);
              full := true;
              return;
            }
          }
          CellSeen(w, b, p, marked, done, stack[..sp], found, q, d, n);
        } else if v == cells[p] && mark[n] != stamp {
          RoomForOne(w, b, p, marked, done, stack[..sp], found, q, d, n);
          CellMarked(w, b, p, marked, done, stack[..sp], found, q, d, n);
          Push(cells.Length, n, sp, stamp, marked);
          sp := sp + 1;
          marked := marked + {n};
        } else {
          CellSeen(w, b, p, marked, done, stack[..sp], found, q, d, n);
        }
      }
    }

    /** The number of liberties of the group at `p`, counted up to `limit`. */
    method LibsUpTo(cells: array<int>, p: int, limit: nat) returns (libs: nat)
      requires Valid(cells.Length) && cells != mark && cells != lmark && cells != stack
      requires Framed(w, cells[..]) && 0 <= p < cells.Length && cells[p] > 0 && limit > 0
      modifies this`stamp, mark, lmark, stack
      ensures Valid(cells.Length)
      ensures libs == Min(limit, |Liberties(w, cells[..], Group(w, cells[..], p))|)
    {
      hide Filling, Group, Liberties, Distinct, Framed, Neighbor, Adjacent;
      ghost var b := cells[..];
      var st := Next();
      libs := 0;
      stack[0] := p;
      var sp: nat := 1;
      mark[p] := st;
      ghost var marked, done, found: set<int> := {p}, {}, {};
      FillStarts(w, b, p);
      assert stack[..sp] == [p];
      while sp > 0
        invariant sp <= stack.Length && Valid(cells.Length) && st == stamp && cells[..] == b
        invariant Filling(w, b, p, marked, done, stack[..sp], found, -1, 0)
        invariant Marked(st, marked) && LMarked(st, found)
        invariant libs == |found| < limit
        decreases |Group(w, b, p)| - |done|
      {
        sp := sp - 1;
        var q := stack[sp];
        Popped(w, b, p, marked, done, stack[..sp + 1], found);
        assert stack[..sp + 1][..sp] == stack[..sp];
        var full;
        sp, libs, full, marked, found := Visit(cells, p, q, sp, libs, limit, b, marked, done, found);
        if full {
          return;
        }
        CellDone(w, b, p, marked, done, stack[..sp], found, q);
        MoreDone(w, b, p, marked, done, stack[..sp], found, q);
        done := done + {q};
      }
      assert stack[..0] == [];
      Filled(w, b, p, marked, done, found);
    }

    ghost predicate Ready(s: State)
      reads this, mark, lmark, s, s.cells, s.losses
    {
      && Valid(s.cells.Length) && Sound(g, s.Model())
      && s.cells != mark && s.cells != lmark && s.cells != stack && s.cells != s.losses
      && s.losses != mark && s.losses != lmark && s.losses != stack
    }

    /** Puts the unmarked neighbours of `q` that belong to the group on the stack. */
    method Spread(cells: array<int>, p: int, q: int, col: int, start: nat, ghost b: Board, ghost was: set<int>, ghost done: set<int>, ghost all: set<int>)
      returns (sp: nat, ghost marked: set<int>)
      requires Valid(cells.Length) && cells != mark && cells != lmark && cells != stack
      requires Framed(w, b) && 0 <= p < |b| && b[p] == col > 0 && start <= stack.Length && q in was && 0 <= q < |b| && b[q] == col
      requires cells[..] == Cleared(b, done + {q}) && all == Liberties(w, b, Group(w, b, p))
      requires Filling(w, b, p, was, done, stack[..start], all, q, 0) && Marked(stamp, was)
      modifies mark, stack
      ensures Valid(cells.Length) && sp <= stack.Length && q in marked && Marked(stamp, marked)
      ensures Filling(w, b, p, marked, done, stack[..sp], all, q, 4)
    {
      hide Filling, Group, Liberties, Distinct, Framed, Neighbor, Adjacent;
      sp, marked := start, was;
      for d := 0 to 4
        invariant sp <= stack.Length && Valid(cells.Length) && cells[..] == Cleared(b, done + {q})
        invariant Filling(w, b, p, marked, done, stack[..sp], all, q, d)
        invariant Marked(stamp, marked) && q in marked
      {
        NeighborExists(w, b, q, d);
        var n := Neighbor(w, q, d);
        if b[n] == OPEN { OpenIsLiberty(w, b, p, marked, done, stack[..sp], all, q, d, n); }
        if cells[n] == col && mark[n] != stamp {
          RoomForOne(w, b, p, marked, done, stack[..sp], all, q, d, n);
          CellMarked(w, b, p, marked, done, stack[..sp], all, q, d, n);
          Push(cells.Length, n, sp, stamp, marked);
          sp := sp + 1;
          marked := marked + {n};
        } else {
          DoneAreMarked(w, b, p, marked, done, stack[..sp], all, q, d);
          CellSeen(w, b, p, marked, done, stack[..sp], all, q, d, n);
        }
      }
    }

    /** Takes the group at `p` off the board. */
    method RemoveGroup(s: State, p: int) returns (cnt: nat)
      requires Ready(s) && 0 <= p < s.cells.Length && s.cells[p] > 0
      modifies s`hash, s.cells, this`stamp, mark, lmark, stack
      ensures Valid(s.cells.Length)
      ensures s.cells[..] == Cleared(old(s.cells[..]), Group(w, old(s.cells[..]), p))
      ensures s.hash == HashOf(g, s.cells[..])
      ensures cnt == |Group(w, old(s.cells[..]), p)|
    {
      hide Filling, Group, Liberties, Distinct, Framed, Neighbor, HashOf;
      ghost var b := s.cells[..];
      var st := Next();
      var col := s.cells[p];
      cnt := 0;
      stack[0] := p;
      var sp: nat := 1;
      mark[p] := st;
      ghost var marked, done: set<int> := {p}, {};
      ghost var all := Liberties(w, b, Group(w, b, p));
      FillStartsAll(w, b, p);
      assert stack[..sp] == [p];
      while sp > 0
        invariant sp <= stack.Length && Valid(s.cells.Length) && st == stamp && s.cells[..] == Cleared(b, done)
        invariant Filling(w, b, p, marked, done, stack[..sp], all, -1, 0)
        invariant Marked(st, marked)
        invariant cnt == |done| && s.hash == HashOf(g, s.cells[..])
        decreases |Group(w, b, p)| - |done|
      {
        sp := sp - 1;
        var q := stack[sp];
        Popped(w, b, p, marked, done, stack[..sp + 1], all);
        assert stack[..sp + 1][..sp] == stack[..sp];
        ClearOne(g, b, done, q);
        s.cells[q] := OPEN;
        s.hash := Xor(s.hash, g.zob(q, col));
        cnt := cnt + 1;
        sp, marked := Spread(s.cells, p, q, col, sp, b, marked, done, all);
        CellDone(w, b, p, marked, done, stack[..sp], all, q);
        MoreDone(w, b, p, marked, done, stack[..sp], all, q);
        done := done + {q};
      }
      assert stack[..0] == [];
      Filled(w, b, p, marked, done, all);
    }

    /** Takes the group at `n` off if it is an opponent's and has no liberty. */
    method TakeIfDead(s: State, n: int, c: int) returns (cnt: nat)
      requires Ready(s) && 0 <= n < s.cells.Length
      modifies s`hash, s.cells, s.losses, this`stamp, mark, lmark, stack
      ensures Ready(s)
      ensures Taken(w, n, c, old(s.cells[..]), old(s.losses[..]), s.cells[..], s.losses[..], cnt)
    {
      hide Group, Liberties, HashOf, Framed;
      ghost var b := s.cells[..];
      cnt := 0;
      var v := s.cells[n];
      if v > 0 && v != c {
        var libs := LibsUpTo(s.cells, n, 1);
        NoneIsEmpty(Liberties(w, b, Group(w, b, n)));
        if libs == 0 {
          GroupNotEmpty(w, b, n);
          ClearedOnBoard(g, s.k, b, n);
          cnt := RemoveGroup(s, n);
          s.losses[v] := s.losses[v] + cnt;
        }
      }
    }

    /** The second half of a placement: suicide if nothing was captured, otherwise the ko. */
    method SettleMove(s: State, m: int, captured: nat, capPt: int, victim: int, ghost x: Caught, ghost s0: Position) returns (suicide: nat)
      requires Ready(s) && 0 <= m < s.cells.Length && s.cells[m] == s.toMove
      requires x.cells == s.cells[..] && x.losses == s.losses[..] && x.captured == captured && x.capPt == capPt && x.victim == victim
      requires s.Model() == s0.(passed := {}, cells := x.cells, losses := x.losses, hash := s.hash)
      modifies s, s.cells, s.losses, this`stamp, mark, lmark, stack
      ensures Ready(s)
      ensures s.Model() == Settle(g, s0, m, x).after && Settle(g, s0, m, x).result == Result(captured, suicide, x.victims)
    {
      hide Group, Liberties, HashOf, Framed;
      var c := s.toMove;
      suicide := 0;
      ghost var b := s.cells[..];
      NoneIsEmpty(Liberties(w, b, Group(w, b, m)));
      if captured == 0 {
        var libs := LibsUpTo(s.cells, m, 1);
        if libs == 0 {
          ClearedOnBoard(g, s.k, b, m);
          suicide := RemoveGroup(s, m);
          s.losses[c] := s.losses[c] + suicide;
        }
        s.ko := -1;
      } else {
        SetKo(s, m, captured, capPt, victim);
      }
    }

    /** A ko arises when a lone stone with one liberty took a single stone. */
    method SetKo(s: State, m: int, captured: nat, capPt: int, victim: int)
      requires Ready(s) && 0 <= m < s.cells.Length && s.cells[m] == s.toMove
      modifies s`ko, s`koColor, s`koUntil, this`stamp, mark, lmark, stack
      ensures Ready(s)
      ensures var b := old(s.cells[..]);
              s.Model() == if s.koOn && captured == 1 && Solo(w, b, m, s.toMove) && |Liberties(w, b, Group(w, b, m))| == 1
                           then old(s.Model()).(ko := capPt, koColor := victim, koUntil := s.moveNo + s.k)
                           else old(s.Model()).(ko := -1)
    {
      hide Group, Liberties, HashOf, Framed, Solo;
      var solo := IsSolo(s, m, s.toMove);
      var libs := 0;
      if s.koOn && captured == 1 && solo {
        libs := LibsUpTo(s.cells, m, 2);
      }
      if libs == 1 {
        s.ko, s.koColor, s.koUntil := capPt, victim, s.moveNo + s.k;
      } else {
        s.ko := -1;
      }
    }

    method IsSolo(s: State, m: int, c: int) returns (solo: bool)
      requires Ready(s) && 0 <= m < s.cells.Length && s.cells[m] > 0
      ensures solo == Solo(w, s.cells[..], m, c)
    {
      solo := true;
      for d := 0 to 4
        invariant solo <==> forall e: nat {:trigger Neighbor(w, m, e)} :: e < d && 0 <= Neighbor(w, m, e) < s.cells.Length ==>
                                                                            s.cells[Neighbor(w, m, e)] != c
      {
        PointHasNeighbors(g, s.k, s.cells[..], m, d);
        if s.cells[Neighbor(w, m, d)] == c { solo := false; }
      }
    }

    /** The ordinary move: a stone, the captures around it, then suicide or ko. */
    method Place(s: State, m: int) returns (r: Result)
      requires Ready(s) && 0 <= m < s.cells.Length && s.cells[m] == OPEN
      modifies s, s.cells, s.losses, this`stamp, mark, lmark, stack
      ensures Ready(s)
      ensures s.Model() == PlaceStone(g, old(s.Model()), m).after && r == PlaceStone(g, old(s.Model()), m).result
    {
      hide Group, Liberties, HashOf, OnBoard, Alive, Cleared, Neighbor, Settle, PlaceStone, Xor, Solo, CaptureAt, DeadAt, Taken;
      ghost var s0 := s.Model();
      var c := s.toMove;
      PlacedOnBoard(g, s.k, s.cells[..], m, c);
      s.passed := {};
      s.cells[m] := c;
      s.hash := Xor(s.hash, g.zob(m, c));
      ghost var x := Placed(s0, m);
      var captured: nat, capPt, victim := 0, -1, 0;
      var victims: map<int, nat> := map[];
      for d := 0 to 4
        invariant Ready(s) && x == Captures(w, m, c, d, Placed(s0, m))
        invariant s.Model() == s0.(passed := {}, cells := x.cells, losses := x.losses, hash := s.hash)
        invariant x == Caught(s.cells[..], s.losses[..], captured, capPt, victim, victims)
        invariant s.cells[m] == c
      {
        PointHasNeighbors(g, s.k, s.cells[..], m, d);
        var n := Neighbor(w, m, d);
        var v := s.cells[n];
        var cnt := TakeIfDead(s, n, c);
        TakenIsCapture(w, m, c, d, x, s.cells[..], s.losses[..], cnt);
        if cnt > 0 {
          captured := captured + cnt;
          capPt, victim := n, v;
          victims := victims[v := CountOf(victims, v) + cnt];
        }
        x := CaptureAt(w, m, c, d, x);
      }
      assert PlaceStone(g, s0, m) == Settle(g, s0, m, x) by { PlaceIsSettle(g, s0, m); }
      var suicide := SettleMove(s, m, captured, capPt, victim, x, s0);
      r := Result(captured, suicide, victims);
    }

    /** One move for the seat to move. The caller checks legality first. */
    method Play(s: State, move: int) returns (r: Result)
      requires Ready(s) && move < s.cells.Length
      requires move >= 0 && s.toMove !in s.out ==> s.cells[move] == OPEN
      modifies s, s.cells, s.losses, this`stamp, mark, lmark, stack
      ensures Ready(s)
      ensures s.Model() == GoRules.Play(g, old(s.Model()), move).after && r == GoRules.Play(g, old(s.Model()), move).result
    {
      hide PlaceStone, HashOf, OnBoard;
      var c, m := s.toMove, move;
      r := Result(0, 0, map[]);
      if c in s.out && (m >= 0 || m == TIMEOUT) {
        m := PASS;
      }
      if m == TIMEOUT {
        s.timeouts := s.timeouts + 1;
      } else if c !in s.out {
        s.timeouts := 0;
      }
      if m < 0 {
        SitOut(s, m);
      } else {
        r := Place(s, m);
      }
      EndTurn(s);
    }

    /** A turn without a stone. */
    method SitOut(s: State, m: int)
      requires Ready(s) && m < 0
      modifies s`ko, s`out, s`passed
      ensures Ready(s)
      ensures var x := old(s.Model());
              s.Model() == if m == TIMEOUT then x.(ko := -1)
                           else if m == RESIGN then x.(ko := -1, out := x.out + {x.toMove})
                           else x.(ko := -1, passed := x.passed + {x.toMove})
    {
      hide HashOf, OnBoard;
      if m == RESIGN {
        s.out := s.out + {s.toMove};
      } else if m != TIMEOUT {
        s.passed := s.passed + {s.toMove};
      }
      s.ko := -1;
    }

    method EndTurn(s: State)
      requires Ready(s)
      modifies s`moveNo, s`toMove
      ensures Ready(s)
      ensures var x := old(s.Model()); s.Model() == x.(moveNo := x.moveNo + 1, toMove := x.toMove % x.k + 1)
    {
      hide HashOf, OnBoard;
      s.moveNo := s.moveNo + 1;
      s.toMove := s.toMove % s.k + 1;
    }

    /** Foretells suicide from liberty counts alone. */
    method WouldSuicide(s: State, p: int, c: int) returns (doomed: bool)
      requires Ready(s) && 0 <= p < s.cells.Length && s.cells[p] == OPEN && c > 0
      modifies this`stamp, mark, lmark, stack
      ensures Ready(s) && (doomed <==> Doomed(w, s.cells[..], p, c))
    {
      hide Group, Liberties, HashOf, Framed;
      for d := 0 to 4
        invariant Ready(s)
        invariant forall e: nat {:trigger Neighbor(w, p, e)} :: e < d && 0 <= Neighbor(w, p, e) < s.cells.Length ==>
                                                                 Shut(w, s.cells[..], Neighbor(w, p, e), c)
      {
        PointHasNeighbors(g, s.k, s.cells[..], p, d);
        var n := Neighbor(w, p, d);
        var v := s.cells[n];
        if v == OPEN {
          return false;
        }
        if v == c {
          var libs := LibsUpTo(s.cells, n, 2);
          if libs >= 2 {
            return false;
          }
        } else if v > 0 {
          var libs := LibsUpTo(s.cells, n, 2);
          if libs == 1 {
            return false;
          }
        }
      }
      return true;
    }

    /** Puts the unmarked open neighbours of `q` on the stack and collects the colours of the others. */
    method SpreadOpen(s: State, p: int, q: int, start: nat, found: set<int>, ghost seen: set<int>, ghost b: Board, ghost was: set<int>,
                      ghost done: set<int>, ghost all: set<int>) returns (sp: nat, mask: set<int>, ghost marked: set<int>)
      requires Ready(s) && b == s.cells[..] && 0 <= p < |b| && b[p] == OPEN && start <= stack.Length
      requires q in was && 0 <= q < |b| && b[q] == OPEN && all == Liberties(w, b, Group(w, b, p))
      requires Filling(w, b, p, was, done, stack[..start], all, q, 0) && Bordered(w, b, p, done, found, q, 0)
      requires Marked(stamp, seen + was) && seen !! Group(w, b, p)
      modifies mark, stack
      ensures Valid(s.cells.Length) && sp <= stack.Length && q in marked && Marked(stamp, seen + marked)
      ensures Filling(w, b, p, marked, done, stack[..sp], all, q, 4) && Bordered(w, b, p, done, mask, q, 4)
    {
      hide Filling, Group, Liberties, Distinct, Framed, Neighbor, Bordered, HashOf, Adjacent;
      sp, mask, marked := start, found, was;
      for d := 0 to 4
        invariant sp <= stack.Length && Valid(s.cells.Length)
        invariant Filling(w, b, p, marked, done, stack[..sp], all, q, d)
        invariant Bordered(w, b, p, done, mask, q, d)
        invariant Marked(stamp, seen + marked) && q in marked
      {
        NeighborExists(w, b, q, d);
        var n := Neighbor(w, q, d);
        var v := s.cells[n];
        InRegion(w, b, p, marked, done, stack[..sp], all, q, d, n);
        BorderSeen(w, b, p, done, mask, q, d, n);
        if v == OPEN && mark[n] != stamp {
          RoomForOne(w, b, p, marked, done, stack[..sp], all, q, d, n);
          CellMarked(w, b, p, marked, done, stack[..sp], all, q, d, n);
          Push(s.cells.Length, n, sp, stamp, seen + marked);
          sp := sp + 1;
          marked := marked + {n};
          assert seen + (marked - {n}) + {n} == seen + marked;
        } else {
          CellSeen(w, b, p, marked, done, stack[..sp], all, q, d, n);
          if v > 0 { mask := mask + {v}; }
        }
      }
    }

    /** Fills the open region of `p`: its size, the colours around it and, if wanted, its cells. */
    method Region(s: State, p: int, st: int, wantOwner: bool, ghost seen: set<int>) returns (size: nat, mask: set<int>, region: seq<int>)
      requires Ready(s) && st == stamp && 0 <= p < s.cells.Length && s.cells[p] == OPEN
      requires Marked(st, seen) && seen !! Group(w, s.cells[..], p)
      modifies mark, stack
      ensures Valid(s.cells.Length) && Marked(st, seen + Group(w, s.cells[..], p))
      ensures size == |Group(w, s.cells[..], p)| && Bordered(w, s.cells[..], p, Group(w, s.cells[..], p), mask, -1, 0)
      ensures wantOwner ==> forall x :: x in region <==> x in Group(w, s.cells[..], p)
    {
      hide Filling, Group, Liberties, Distinct, Framed, Neighbor, Bordered, HashOf, Adjacent;
      ghost var b := s.cells[..];
      size, mask, region := 0, {}, [];
      stack[0] := p;
      var sp := 1;
      mark[p] := st;
      ghost var marked, done: set<int> := {p}, {};
      ghost var all := Liberties(w, b, Group(w, b, p));
      FillStartsAll(w, b, p);
      BorderStarts(w, b, p);
      assert stack[..sp] == [p];
      while sp > 0
        invariant 0 <= sp <= stack.Length && Valid(s.cells.Length) && st == stamp
        invariant Filling(w, b, p, marked, done, stack[..sp], all, -1, 0)
        invariant Bordered(w, b, p, done, mask, -1, 0)
        invariant Marked(st, seen + marked) && size == |done|
        invariant wantOwner ==> forall x :: x in region <==> x in done
        decreases |Group(w, b, p)| - |done|
      {
        sp := sp - 1;
        var q := stack[sp];
        Popped(w, b, p, marked, done, stack[..sp + 1], all);
        BorderNext(w, b, p, done, mask, q);
        assert stack[..sp + 1][..sp] == stack[..sp];
        size := size + 1;
        if wantOwner {
          region := region + [q];
        }
        sp, mask, marked := SpreadOpen(s, p, q, sp, mask, seen, b, marked, done, all);
        CellDone(w, b, p, marked, done, stack[..sp], all, q);
        BorderDone(w, b, p, done, mask, q);
        MoreDone(w, b, p, marked, done, stack[..sp], all, q);
        done := done + {q};
      }
      assert stack[..0] == [];
      Filled(w, b, p, marked, done, all);
    }

    /** Writes the owner of a region into its cells. */
    static method Claim(owner: array<int>, region: seq<int>, o: int)
      requires forall x <- region :: 0 <= x < owner.Length
      modifies owner
      ensures forall i :: 0 <= i < owner.Length ==> owner[i] == if i in region then o else old(owner[i])
    {
      for r := 0 to |region|
        invariant forall i :: 0 <= i < owner.Length ==> owner[i] == if i in region[..r] then o else old(owner[i])
      {
        assert region[r] in region;
        owner[region[r]] := o;
      }
      assert region[..|region|] == region;
    }

    /** One region: if its border has a single colour, its points are that seat's territory. */
    method ScoreRegion(s: State, q0: int, st: int, wantOwner: bool, territory: array<int>, owner: array<int>, ghost seen: set<int>)
      requires Ready(s) && st == stamp && 0 <= q0 < s.cells.Length && s.cells[q0] == OPEN && Marked(st, seen)
      requires territory.Length == MAX_PLAYERS + 1 && owner.Length == if wantOwner then s.cells.Length else 0
      requires territory != owner && territory !in {s.cells, s.losses, mark, lmark, stack} && owner !in {s.cells, s.losses, mark, lmark, stack}
      requires seen !! Group(w, s.cells[..], q0)
      requires Tallied(w, s.cells[..], seen, territory[..]) && OwnersShown(w, s.cells[..], seen, owner[..])
      modifies mark, stack, territory, owner
      ensures Valid(s.cells.Length) && Marked(st, seen + Group(w, s.cells[..], q0))
      ensures Tallied(w, s.cells[..], seen + Group(w, s.cells[..], q0), territory[..])
      ensures OwnersShown(w, s.cells[..], seen + Group(w, s.cells[..], q0), owner[..])
    {
      hide Group, Marked, Bordered, HashOf, OnBoard, Tallied, OwnersShown, Framed;
      ghost var b := s.cells[..];
      ghost var before, shown := territory[..], owner[..];
      var size, mask, region := Region(s, q0, st, wantOwner, seen);
      if |mask| == 1 {
        ghost var some := SomeElement(mask);
        var o :| o in mask;
        OnlyOne(mask, o);
        MaskIsSeat(g, s.k, b, q0, mask, o);
        territory[o] := territory[o] + size;
        if wantOwner {
          RegionInBounds(w, b, q0);
          Claim(owner, region, o);
        }
      }
      RegionTallied(w, b, seen, q0, mask, before, territory[..]);
      RegionShown(w, b, seen, q0, mask, shown, owner[..]);
    }

    /** Territory, score and, if wanted, the owner of every open point. Visits the cells in index order; walls are not open. */
    method Score(s: State, wantOwner: bool) returns (territory: array<int>, scores: array<int>, owner: array<int>)
      requires Ready(s)
      modifies this`stamp, mark, lmark, stack
      ensures Ready(s) && fresh(territory) && fresh(scores) && fresh(owner)
      ensures territory.Length == scores.Length == MAX_PLAYERS + 1
      ensures forall o :: 0 <= o <= MAX_PLAYERS ==> territory[o] == |Territory(w, s.cells[..], o)|
      ensures forall o :: 1 <= o <= s.k ==> scores[o] == |Territory(w, s.cells[..], o)| - s.losses[o]
      ensures owner.Length == if wantOwner then s.cells.Length else 0
      ensures forall i :: 0 <= i < owner.Length ==> Shown(w, s.cells[..], i, owner[i])
    {
      hide Group, Marked, HashOf, OnBoard, Territory, Shown, Visited, Tallied, OwnersShown, Framed;
      ghost var b := s.cells[..];
      territory := new int[MAX_PLAYERS + 1](_ => 0);
      scores := new int[MAX_PLAYERS + 1](_ => 0);
      owner := new int[if wantOwner then s.cells.Length else 0](_ => 0);
      var st := Next();
      ghost var seen: set<int> := {};
      NothingMarked(st);
      NothingScored(w, b, territory[..], owner[..]);
      for q0 := 0 to s.cells.Length
        invariant Ready(s) && st == stamp && s.cells[..] == b && Marked(st, seen)
        invariant Visited(w, b, q0, seen) && Tallied(w, b, seen, territory[..]) && OwnersShown(w, b, seen, owner[..])
      {
        if s.cells[q0] == OPEN {
          StampedIsSeen(st, seen, q0);
          if mark[q0] != st {
            NewRegion(w, b, q0, seen);
            ScoreRegion(s, q0, st, wantOwner, territory, owner, seen);
            seen := seen + Group(w, b, q0);
          }
        }
        VisitedMore(w, b, q0, seen);
      }
      AllVisited(w, b, seen, territory[..], owner[..]);
      Subtract(s, territory, scores);
    }

    /** A seat's score is its territory less its losses. */
    method Subtract(s: State, territory: array<int>, scores: array<int>)
      requires Ready(s) && territory.Length == scores.Length == MAX_PLAYERS + 1
      requires scores !in {territory, s.cells, s.losses, mark, lmark, stack}
      modifies scores
      ensures forall o :: 1 <= o <= s.k ==> scores[o] == territory[o] - s.losses[o]
    {
      hide HashOf, OnBoard;
      for i := 1 to s.k + 1
        invariant forall o :: 1 <= o < i ==> scores[o] == territory[o] - s.losses[o]
      {
        scores[i] := territory[i] - s.losses[i];
      }
    }

    lemma NothingMarked(st: int)
      requires forall i :: 0 <= i < mark.Length ==> mark[i] != st
      ensures Marked(st, {})
    {
    }

    lemma StampedIsSeen(st: int, seen: set<int>, i: int)
      requires Marked(st, seen) && 0 <= i < mark.Length
      ensures mark[i] == st <==> i in seen
    {
    }
  }
}
