/** The bowl: who took how many stones of whom, told from the records of the moves. */
module GoBowl {
  import opened Options
  import opened GoRules
  import opened GoRuns
  import opened GoTurns
  import opened GoServing

  /** Stones of seat `v` that seat `c` took off the board with one recorded move, its own by suicide. */
  function TakenBy(r: MoveRecord, v: nat, c: nat): int
    requires v > 0
  {
    if r.seat != c then 0
    else (if v <= |r.victims| then r.victims[v - 1] else 0) + (if v == c then r.suicide else 0)
  }

  function TakenInAll(records: seq<MoveRecord>, v: nat, c: nat): int
    requires v > 0
  {
    if records == [] then 0 else TakenInAll(records[..|records| - 1], v, c) + TakenBy(records[|records| - 1], v, c)
  }

  /** Row `v`, column `c` counts the stones of `v` that `c` took. */
  predicate CellTells(bowl: seq<seq<int>>, moves: seq<MoveRecord>, v: nat, c: nat) {
    0 < v < |bowl| && c < |bowl[v]| && bowl[v][c] == TakenInAll(moves, v, c)
  }

  predicate AllTell(bowl: seq<seq<int>>, moves: seq<MoveRecord>, k: nat) {
    forall v: nat, c: nat :: 1 <= v <= k && 1 <= c <= k ==> CellTells(bowl, moves, v, c)
  }

  predicate BowlTells(x: Table) {
    AllTell(x.bowl, x.moves, x.pos.k)
  }

  lemma RecordedTells(g: Geom, x: Table, m: int, source: Source)
    requires Seated(x) && m < |x.pos.cells| && |x.moves| < MAX_MOVE_RECORDS && BowlTells(x) && BowlMatches(x) && x.pos.k <= MAX_PLAYERS
    ensures BowlTells(Recorded(g, x, m, source))
  {
    hide Remember, CellTells;
    var y, p := Recorded(g, x, m, source), Play(g, x.pos, m);
    var r := RecordOf(g, x.pos, m, source, p.result);
    forall v: nat, c: nat | 1 <= v <= x.pos.k && 1 <= c <= x.pos.k ensures CellTells(y.bowl, y.moves, v, c) {
      assert CellTells(x.bowl, x.moves, v, c);
      OneMoreTells(x.bowl, x.moves, x.pos.toMove, p.result, r, v, c);
    }
  }

  lemma OneMoreTells(bowl: seq<seq<int>>, moves: seq<MoveRecord>, n: nat, result: Result, r: MoveRecord, v: nat, c: nat)
    requires CellTells(bowl, moves, v, c) && n < |bowl[v]| && r.seat == n && r.suicide == result.suicide
    requires v <= |r.victims| && r.victims[v - 1] == CountOf(result.victims, v)
    ensures CellTells(Bowled(bowl, n, result), moves + [r], v, c)
  {
    assert (moves + [r])[..|moves|] == moves;
  }

  lemma {:induction false} AppliedTells(g: Geom, c: Clock, x: Table, m: int, source: Source)
    requires Kept(g, x) && m < |x.pos.cells| && Permitted(g, x.history, x.pos, m) && x.playing && !Terminal(g, x.pos) && BowlTells(x)
    ensures BowlTells(Applied(g, c, x, m, source))
    decreases 3 * g.n * g.n - x.pos.moveNo, 0
  {
    hide Recorded, Permitted, Kept, BowlTells;
    KeptSeated(g, x);
    RoomForRecord(g, x);
    KeptBowl(g, x);
    NotOver(g, x.pos);
    RecordedKept(g, x, m, source);
    RecordedFields(g, x, m, source);
    RecordedTells(g, x, m, source);
    BegunTells(g, c, Recorded(g, x, m, source));
  }

  lemma KeptBowl(g: Geom, x: Table)
    requires Kept(g, x)
    ensures BowlMatches(x) && x.pos.k <= MAX_PLAYERS
  {
    hide BowlMatches, Start, Follows, Tells;
    var t :| ShowsGame(g, x, t);
  }

  lemma {:induction false} BegunTells(g: Geom, c: Clock, x: Table)
    requires Kept(g, x) && x.playing && x.pos.moveNo <= 3 * g.n * g.n && BowlTells(x)
    ensures BowlTells(Begun(g, c, x))
    decreases 3 * g.n * g.n - x.pos.moveNo, 2
  {
    hide Recorded, Permitted, Terminal, BowlMatches, ShowsGame, Applied, AllTell;
    if !Terminal(g, x.pos) {
      if x.pos.toMove in x.pos.out {
        ServerMoves(g, x);
        AppliedTells(g, c, x, PASS, Resigned);
      } else {
        SameGame(g, x, x.(turnBegan := c.now));
        ArmedTells(g, c, x.(turnBegan := c.now), true);
      }
    }
  }

  lemma {:induction false} ArmedTells(g: Geom, c: Clock, x: Table, anew: bool)
    requires Kept(g, x) && x.playing && !Terminal(g, x.pos) && BowlTells(x)
    ensures BowlTells(Armed(g, c, x, anew))
    decreases 3 * g.n * g.n - x.pos.moveNo, 1
  {
    hide Recorded, Permitted, Terminal, BowlMatches, ShowsGame, Applied, AllTell;
    if !x.closed && !x.seats[x.pos.toMove - 1].BotControlled() && c.limit - (if anew then 0 else c.now - x.turnBegan) <= 0 {
      ServerMoves(g, x);
      AppliedTells(g, c, x, TIMEOUT, Deadline);
    }
  }

  lemma StartedTells(g: Geom, c: Clock, k: nat, koOn: bool, seats: seq<Seat>, closed: bool)
    requires g.n <= 19 && 1 <= k <= MAX_PLAYERS && k == |seats|
    ensures BowlTells(Started(g, c, k, koOn, seats, closed))
  {
    hide Remember, Terminal, EmptyBoard;
    var s := Start(g, k, koOn);
    var x := Table(true, s, Remember(g, map[], s), [], EMPTY_BOWL, 0, 0, None, {}, seats, closed);
    FirstKept(g, x, k, koOn);
    BegunTells(g, c, x);
  }

  lemma FirstKept(g: Geom, x: Table, k: nat, koOn: bool)
    requires g.n <= 19 && 1 <= k <= MAX_PLAYERS && k == |x.seats|
    requires x.pos == Start(g, k, koOn) && x.history == Remember(g, map[], x.pos) && x.moves == [] && x.bowl == EMPTY_BOWL && x.jobs == {}
    ensures Kept(g, x)
  {
    hide Remember, Terminal, EmptyBoard;
    assert ShowsGame(g, x, Transcript([x.pos], [], [x.history]));
    forall v | 1 <= v <= k ensures Sum(x.bowl[v]) == x.pos.losses[v] { ZeroSum(x.bowl[v]); }
  }

  lemma EventTells(g: Geom, x: Table, e: Event)
    requires Kept(g, x) && TurnOpen(g, x) && BowlTells(x)
    ensures Ready(g, x) && BowlTells(Served(g, x, e))
  {
    hide Kept, Terminal, Applied, Armed, Legality, Permitted, Play, AllTell;
    KeptSeated(g, x);
    if x.playing {
      ServerMoves(g, x);
      match e
      case Asked(c, player, moveNo, r) =>
        AppliedTells(g, c, x, TIMEOUT, Deadline);
        var cell := CellFor(g, r);
        if cell.Some? && Legality(g, x.history, x.pos, cell.value) == Fine {
          CellIsPermitted(g, x.history, x.pos, cell.value);
          AppliedTells(g, c, x, cell.value, Person);
        }
      case BotAnswered(c, revision, move) =>
        var source := if x.seats[x.pos.toMove - 1].autopilot then Autopilot else Bot;
        AppliedTells(g, c, x, PASS, source);
        if Legality(g, x.history, x.pos, move) == Fine {
          CellIsPermitted(g, x.history, x.pos, move);
          AppliedTells(g, c, x, move, source);
        }
      case TimerRan(c, revision) => AppliedTells(g, c, x, TIMEOUT, Deadline);
      case AutopilotAsked(c, player, on) => SwitchTells(g, c, x, player, on);
      case Closed =>
    }
  }

  lemma SwitchTells(g: Geom, c: Clock, x: Table, player: string, on: bool)
    requires Kept(g, x) && TurnOpen(g, x) && x.playing && BowlTells(x)
    ensures BowlTells(AutopilotRequest(g, c, x, player, on).table)
  {
    hide Terminal, Applied, Armed, Permitted, Play, Reached, BowlMatches, AllTell;
    var n := SeatOf(x.seats, player, 0);
    if n != 0 && x.seats[n - 1].autopilot != on {
      var y := x.(seats := x.seats[n - 1 := x.seats[n - 1].(autopilot := on)]);
      SameGame(g, x, y);
      if x.pos.toMove == n && n !in x.pos.out {
        var z := y.(turnSeq := y.turnSeq + 1, timer := None);
        SameGame(g, x, z);
        ArmedTells(g, c, z, false);
      }
    }
  }

  /** At every moment of every run the bowl tells exactly who took whose stones. */
  lemma {:induction false} RunTells(g: Geom, run: seq<Table>, events: seq<Event>, i: nat)
    requires IsServed(g, run, events) && i < |run|
    ensures BowlTells(run[i])
  {
    hide Kept, TurnOpen, Started, Served, Ready, BowlTells;
    if i == 0 {
      var c, k, koOn, seats, closed :| StartedAs(g, c, k, koOn, seats, closed, run[0]);
      StartedTells(g, c, k, koOn, seats, closed);
    } else {
      RunTells(g, run, events, i - 1);
      RunKeeps(g, run, events, i - 1);
      EventTells(g, run[i - 1], events[i - 1]);
      assert Serves(g, run[i - 1], events[i - 1], run[i - 1 + 1]);
    }
  }
}
