/** A whole life of a game on the server: any sequence of requests, bot answers and timers, in any order, stale or not. */
module GoServing {
  import opened Options
  import opened GoRules
  import opened GoRuns
  import opened GoEnds
  import opened GoTurns

  datatype Event =
    | Asked(clock: Clock, player: string, moveNo: nat, request: Request)
    | BotAnswered(clock: Clock, revision: nat, move: int)
    | TimerRan(clock: Clock, revision: nat)
    | AutopilotAsked(clock: Clock, player: string, on: bool)
    | Closed

  /** Enough for any event to be served. */
  predicate Ready(g: Geom, x: Table) {
    Seated(x) && (x.playing ==> !Terminal(g, x.pos))
  }

  ghost function Served(g: Geom, x: Table, e: Event): Table
    requires Ready(g, x)
  {
    match e
    case Asked(c, player, moveNo, r) => PlayRequest(g, c, x, player, moveNo, r).table
    case BotAnswered(c, revision, move) => BotAnswer(g, c, x, revision, move)
    case TimerRan(c, revision) => TimerFired(g, c, x, revision)
    case AutopilotAsked(c, player, on) => AutopilotRequest(g, c, x, player, on).table
    case Closed => ShutDown(x)
  }

  ghost predicate Serves(g: Geom, x: Table, e: Event, y: Table) {
    Ready(g, x) && y == Served(g, x, e)
  }

  ghost predicate Begins(g: Geom, x: Table) {
    exists c, k, koOn, seats, closed :: StartedAs(g, c, k, koOn, seats, closed, x)
  }

  ghost predicate StartedAs(g: Geom, c: Clock, k: nat, koOn: bool, seats: seq<Seat>, closed: bool, x: Table) {
    1 <= k <= MAX_PLAYERS && k == |seats| && x == Started(g, c, k, koOn, seats, closed)
  }

  /** The tables a game goes through, from its start, under these events. */
  ghost predicate IsServed(g: Geom, run: seq<Table>, events: seq<Event>) {
    && g.n <= 19
    && |run| == |events| + 1 && Begins(g, run[0])
    && forall i :: 0 <= i < |events| ==> Serves(g, run[i], events[i], run[i + 1])
  }

  // ----- what one event does -----

  /** An event keeps what every table satisfies, and the turn revision never goes back. */
  lemma EventKeeps(g: Geom, x: Table, e: Event)
    requires Kept(g, x) && TurnOpen(g, x)
    ensures Ready(g, x) && Kept(g, Served(g, x, e)) && TurnOpen(g, Served(g, x, e)) && Served(g, x, e).turnSeq >= x.turnSeq
  {
    hide Kept, Terminal, PlayRequest, BotAnswer, TimerFired, AutopilotRequest;
    KeptSeated(g, x);
    match e
    case Asked(c, player, moveNo, r) => PlayRequestKeeps(g, c, x, player, moveNo, r);
    case BotAnswered(c, revision, move) => BotAnswerKeeps(g, c, x, revision, move);
    case TimerRan(c, revision) => TimerFiredKeeps(g, c, x, revision);
    case AutopilotAsked(c, player, on) => AutopilotRequestKeeps(g, c, x, player, on);
    case Closed => ShutDownKeeps(g, x);
  }

  /** What no turn does: take back a record, open a closed server, change the rules, or give a seat to somebody else. */
  predicate Onward(x: Table, y: Table) {
    && x.moves <= y.moves && (x.closed ==> y.closed) && x.pos.k == y.pos.k && x.pos.koOn == y.pos.koOn && |x.seats| == |y.seats|
    && forall i :: 0 <= i < |x.seats| ==> y.seats[i] == x.seats[i].(autopilot := y.seats[i].autopilot)
  }

  lemma RecordedOnward(g: Geom, x: Table, m: int, source: Source)
    requires Seated(x) && m < |x.pos.cells|
    ensures Onward(x, Recorded(g, x, m, source)) && Recorded(g, x, m, source).turnSeq > x.turnSeq
  {
    hide Play, Remember, Bowled, RecordOf;
  }

  lemma {:induction false} AppliedOnward(g: Geom, c: Clock, x: Table, m: int, source: Source)
    requires Seated(x) && m < |x.pos.cells| && !Terminal(g, x.pos)
    ensures Onward(x, Applied(g, c, x, m, source))
    decreases 3 * g.n * g.n - x.pos.moveNo, 0
  {
    hide Recorded;
    NotOver(g, x.pos);
    RecordedOnward(g, x, m, source);
    BegunOnward(g, c, Recorded(g, x, m, source));
  }

  lemma {:induction false} BegunOnward(g: Geom, c: Clock, x: Table)
    requires Seated(x) && x.pos.moveNo <= 3 * g.n * g.n
    ensures Onward(x, Begun(g, c, x))
    decreases 3 * g.n * g.n - x.pos.moveNo, 2
  {
    hide Recorded, Terminal, Applied;
    if !Terminal(g, x.pos) {
      if x.pos.toMove in x.pos.out {
        AppliedOnward(g, c, x, PASS, Resigned);
      } else {
        ArmedOnward(g, c, x.(turnBegan := c.now), true);
      }
    }
  }

  lemma {:induction false} ArmedOnward(g: Geom, c: Clock, x: Table, anew: bool)
    requires Seated(x) && !Terminal(g, x.pos)
    ensures Onward(x, Armed(g, c, x, anew))
    decreases 3 * g.n * g.n - x.pos.moveNo, 1
  {
    hide Recorded, Terminal, Applied;
    if !x.closed && !x.seats[x.pos.toMove - 1].BotControlled() && c.limit - (if anew then 0 else c.now - x.turnBegan) <= 0 {
      AppliedOnward(g, c, x, TIMEOUT, Deadline);
    }
  }

  /** A table starts with the rules and the players it was given. */
  lemma StartsAsGiven(g: Geom, c: Clock, k: nat, koOn: bool, seats: seq<Seat>, closed: bool)
    requires 1 <= k <= MAX_PLAYERS && k == |seats|
    ensures var x := Started(g, c, k, koOn, seats, closed);
            && x.pos.k == k && x.pos.koOn == koOn && (closed ==> x.closed) && |x.seats| == k
            && forall i :: 0 <= i < k ==> x.seats[i] == seats[i].(autopilot := x.seats[i].autopilot)
  {
    hide Begun, Remember, EmptyBoard;
    var s := Start(g, k, koOn);
    BegunOnward(g, c, Table(true, s, Remember(g, map[], s), [], EMPTY_BOWL, 0, 0, None, {}, seats, closed));
  }

  lemma EventOnward(g: Geom, x: Table, e: Event)
    requires Ready(g, x)
    ensures Onward(x, Served(g, x, e))
  {
    hide Terminal, Applied, Onward, PlayRequest, BotAnswer, AutopilotRequest;
    OnwardSame(x);
    if x.playing {
      match e
      case Asked(c, player, moveNo, r) => RequestOnward(g, c, x, player, moveNo, r);
      case BotAnswered(c, revision, move) => AnswerOnward(g, c, x, revision, move);
      case TimerRan(c, revision) => AppliedOnward(g, c, x, TIMEOUT, Deadline);
      case AutopilotAsked(c, player, on) => SwitchOnward(g, c, x, player, on);
      case Closed => ClosedOnward(x);
    } else {
      FinishedOnward(g, x, e);
    }
  }

  lemma OnwardSame(x: Table)
    ensures Onward(x, x)
  {
  }

  lemma ClosedOnward(x: Table)
    ensures Onward(x, ShutDown(x))
  {
  }

  lemma FinishedOnward(g: Geom, x: Table, e: Event)
    requires Ready(g, x) && !x.playing
    ensures Onward(x, Served(g, x, e))
  {
    hide Terminal;
  }

  lemma RequestOnward(g: Geom, c: Clock, x: Table, player: string, moveNo: nat, r: Request)
    requires Ready(g, x) && x.playing
    ensures Onward(x, PlayRequest(g, c, x, player, moveNo, r).table)
  {
    hide Terminal, Applied, Legality, Onward;
    OnwardSame(x);
    AppliedOnward(g, c, x, TIMEOUT, Deadline);
    var cell := CellFor(g, r);
    if cell.Some? && Legality(g, x.history, x.pos, cell.value) == Fine { AppliedOnward(g, c, x, cell.value, Person); }
  }

  lemma AnswerOnward(g: Geom, c: Clock, x: Table, revision: nat, move: int)
    requires Ready(g, x) && x.playing
    ensures Onward(x, BotAnswer(g, c, x, revision, move))
  {
    hide Terminal, Applied, Legality, Onward;
    OnwardSame(x);
    var source := if x.seats[x.pos.toMove - 1].autopilot then Autopilot else Bot;
    AppliedOnward(g, c, x, if Legality(g, x.history, x.pos, move) != Fine then PASS else move, source);
  }

  lemma SwitchOnward(g: Geom, c: Clock, x: Table, player: string, on: bool)
    requires Ready(g, x) && x.playing
    ensures Onward(x, AutopilotRequest(g, c, x, player, on).table)
  {
    hide Terminal, Armed;
    var n := SeatOf(x.seats, player, 0);
    if n != 0 && x.seats[n - 1].autopilot != on && x.pos.toMove == n && n !in x.pos.out {
      var y := x.(seats := x.seats[n - 1 := x.seats[n - 1].(autopilot := on)]);
      ArmedOnward(g, c, y.(turnSeq := y.turnSeq + 1, timer := None), false);
    }
  }

  // ----- whole runs -----

  /** At every moment of every run: the table shows a game of the rules with one record for each move, and a game under way
      is not over, does not wait on a resigned seat and, until the server closes, has a timer for its turn. */
  lemma {:induction false} RunKeeps(g: Geom, run: seq<Table>, events: seq<Event>, i: nat)
    requires IsServed(g, run, events) && i < |run|
    ensures Kept(g, run[i]) && TurnOpen(g, run[i])
  {
    hide Kept, TurnOpen, Started, Served, Ready;
    if i == 0 {
      var c, k, koOn, seats, closed :| StartedAs(g, c, k, koOn, seats, closed, run[0]);
      StartedKeeps(g, c, k, koOn, seats, closed);
    } else {
      RunKeeps(g, run, events, i - 1);
      EventKeeps(g, run[i - 1], events[i - 1]);
      assert Serves(g, run[i - 1], events[i - 1], run[i - 1 + 1]);
    }
  }

  /** Over any stretch of a run the turn revision never goes back and no record is changed or dropped. */
  lemma {:induction false} RunOnward(g: Geom, run: seq<Table>, events: seq<Event>, i: nat, j: nat)
    requires IsServed(g, run, events) && i <= j < |run|
    ensures Onward(run[i], run[j]) && run[i].turnSeq <= run[j].turnSeq
    decreases j
  {
    hide Kept, TurnOpen, Served, Ready, Begins;
    if i < j {
      RunOnward(g, run, events, i, j - 1);
      RunKeeps(g, run, events, j - 1);
      assert Serves(g, run[j - 1], events[j - 1], run[j - 1 + 1]);
      EventKeeps(g, run[j - 1], events[j - 1]);
      EventOnward(g, run[j - 1], events[j - 1]);
      OnwardTwice(run[i], run[j - 1], run[j]);
    }
  }

  lemma OnwardTwice(x: Table, y: Table, z: Table)
    requires Onward(x, y) && Onward(y, z)
    ensures Onward(x, z)
  {
  }

  predicate AnswersTurn(e: Event, revision: nat) {
    (e.BotAnswered? || e.TimerRan?) && e.revision == revision
  }

  /** A turn ends at most once: once a move, a timer, a bot's answer or a change of autopilot has ended or restarted it, no
      timer and no bot search that was started for it does anything, however late it comes. */
  lemma TurnEndsOnce(g: Geom, run: seq<Table>, events: seq<Event>, i: nat, j: nat)
    requires IsServed(g, run, events) && i < j < |events|
    requires run[i + 1].turnSeq != run[i].turnSeq && AnswersTurn(events[j], run[i].turnSeq)
    ensures run[j + 1] == run[j]
  {
    hide Kept, TurnOpen, Ready, Begins, Terminal;
    RunOnward(g, run, events, i, i + 1);
    RunOnward(g, run, events, i + 1, j);
    assert Serves(g, run[j], events[j], run[j + 1]);
  }

  /** A finished game stays as it is, whatever still arrives; only the server may close. */
  lemma {:induction false} FinishedStays(g: Geom, run: seq<Table>, events: seq<Event>, i: nat, j: nat)
    requires IsServed(g, run, events) && i <= j < |run| && !run[i].playing
    ensures run[j] == run[i].(closed := run[j].closed, timer := run[j].timer)
    decreases j
  {
    hide Kept, TurnOpen, Ready, Begins, Terminal;
    if i < j {
      FinishedStays(g, run, events, i, j - 1);
      assert Serves(g, run[j - 1], events[j - 1], run[j - 1 + 1]);
    }
  }

  /** A table stops playing exactly when the moves made on it say that the game is over. */
  lemma PlayingUntilOver(g: Geom, run: seq<Table>, events: seq<Event>, i: nat, t: Transcript)
    requires IsServed(g, run, events) && i < |run| && ShowsGame(g, run[i], t)
    ensures run[i].pos.k > 0 && (run[i].playing <==> !Over(g.n, run[i].pos.k, t.moves, |t.moves|))
  {
    hide Terminal, Over, IsServed;
    RunKeeps(g, run, events, i);
    TerminalIffOver(g, run[i].pos.k, run[i].pos.koOn, t, |t.moves|);
  }
}
