/** Who may do what at a table: for every event of every run, exactly when it changes the table, what it records, and what
    its sender is told. */
module GoAsking {
  import opened Options
  import opened GoBoard
  import opened GoRules
  import opened GoRuns
  import opened GoTurns
  import opened GoServing

  /** A person's time per turn is used up; it counts from the start of the turn. */
  predicate Late(x: Table, c: Clock) {
    c.now - x.turnBegan > c.limit
  }

  /** The seat to move is this person's, who plays it, and the request is for this move. */
  predicate MayAsk(x: Table, player: string, moveNo: nat)
    requires Seated(x)
  {
    var seat := x.seats[x.pos.toMove - 1];
    x.playing && !seat.bot && seat.player == player && !seat.autopilot && moveNo == x.pos.moveNo
  }

  /** A stone on this cell: it is open, not forbidden as ko, and brings back no situation when ko is on. */
  ghost predicate Placeable(g: Geom, x: Table, m: int)
    requires x.pos.k > 0
  {
    && 0 <= m < |x.pos.cells| && x.pos.cells[m] == OPEN && IsLegal(g, x.pos, m)
    && !(x.pos.koOn && Seen(g, x.history, Play(g, x.pos, m).after))
  }

  function CellAt(g: Geom, col: nat, row: nat): nat {
    (row + 1) * (g.n + 2) + col + 1
  }

  ghost predicate Allowed(g: Geom, x: Table, r: Request)
    requires x.pos.k > 0
  {
    match r
    case AskPass => true
    case AskResign => true
    case AskPlace(col, row) => col < g.n && row < g.n && Placeable(g, x, CellAt(g, col, row))
    case AskUnknown => false
  }

  function KindAsked(r: Request): Kind {
    match r
    case AskPass => Pass
    case AskResign => Resign
    case AskPlace(col, row) => PlaceAt(col, row)
    case AskUnknown => Pass
  }

  /** The first record of `y` that `x` does not have is for the turn `x` stands at, of this kind and source. */
  predicate Writes(x: Table, y: Table, kind: Kind, source: Source) {
    && |x.moves| < |y.moves| && x.moves <= y.moves
    && var r := y.moves[|x.moves|]; r.moveNo == x.pos.moveNo && r.seat == x.pos.toMove && r.kind == kind && r.source == source
  }

  /** A later turn: a new revision and, if the game goes on, a clock that starts now. */
  predicate NextTurn(x: Table, y: Table, now: int) {
    y.turnSeq > x.turnSeq && (y.playing ==> y.turnBegan == now)
  }

  // ----- ending a turn -----

  /** A turn ended with `m`: its record comes first, then those of the turns it leads to. */
  lemma AppliedWrites(g: Geom, c: Clock, x: Table, m: int, source: Source)
    requires Kept(g, x) && m < |x.pos.cells| && Permitted(g, x.history, x.pos, m) && x.playing && !Terminal(g, x.pos)
    ensures var y := Applied(g, c, x, m, source);
            && Writes(x, y, KindOf(g, m), source) && NextTurn(x, y, c.now)
            && y.moves[|x.moves|] == RecordOf(g, x.pos, m, source, Play(g, x.pos, m).result)
  {
    hide Terminal, Play, Permitted, Kept, Recorded, Begun;
    KeptSeated(g, x);
    RoomForRecord(g, x);
    NotOver(g, x.pos);
    var z := Recorded(g, x, m, source);
    RecordFirst(g, x, m, source);
    BegunOnward(g, c, z);
    AppliedKeeps(g, c, x, m, source);
    BegunNow(g, c, z);
  }

  lemma RecordFirst(g: Geom, x: Table, m: int, source: Source)
    requires Seated(x) && m < |x.pos.cells| && |x.moves| < MAX_MOVE_RECORDS
    ensures var z := Recorded(g, x, m, source);
            && z.moves == x.moves + [RecordOf(g, x.pos, m, source, Play(g, x.pos, m).result)]
            && Writes(x, z, KindOf(g, m), source)
  {
    hide Play, Remember, Bowled;
  }

  /** However many turns pass by themselves, the one that stays open began now. */
  lemma {:induction false} AppliedNow(g: Geom, c: Clock, x: Table, m: int, source: Source)
    requires Seated(x) && m < |x.pos.cells| && !Terminal(g, x.pos)
    ensures Applied(g, c, x, m, source).playing ==> Applied(g, c, x, m, source).turnBegan == c.now
    decreases 3 * g.n * g.n - x.pos.moveNo, 0
  {
    hide Recorded;
    NotOver(g, x.pos);
    BegunNow(g, c, Recorded(g, x, m, source));
  }

  lemma {:induction false} BegunNow(g: Geom, c: Clock, x: Table)
    requires Seated(x) && x.pos.moveNo <= 3 * g.n * g.n
    ensures Begun(g, c, x).playing ==> Begun(g, c, x).turnBegan == c.now
    decreases 3 * g.n * g.n - x.pos.moveNo, 2
  {
    hide Recorded, Terminal, Applied;
    if !Terminal(g, x.pos) {
      if x.pos.toMove in x.pos.out {
        AppliedNow(g, c, x, PASS, Resigned);
      } else {
        ArmedNow(g, c, x.(turnBegan := c.now));
      }
    }
  }

  lemma {:induction false} ArmedNow(g: Geom, c: Clock, x: Table)
    requires Seated(x) && !Terminal(g, x.pos) && x.turnBegan == c.now
    ensures Armed(g, c, x, true).playing ==> Armed(g, c, x, true).turnBegan == c.now
    decreases 3 * g.n * g.n - x.pos.moveNo, 1
  {
    hide Recorded, Terminal, Applied;
    if !x.closed && !x.seats[x.pos.toMove - 1].BotControlled() && c.limit <= 0 { AppliedNow(g, c, x, TIMEOUT, Deadline); }
  }

  lemma NextTurnIsOther(x: Table, y: Table, now: int)
    requires NextTurn(x, y, now)
    ensures y != x
  {
  }

  // ----- a player's request -----

  lemma PlaceableIff(g: Geom, x: Table, m: int)
    requires x.pos.k > 0 && m >= 0
    ensures Legality(g, x.history, x.pos, m) == Fine <==> Placeable(g, x, m)
  {
    hide Play, Seen;
  }

  lemma CellIsNamed(g: Geom, x: Table, r: Request)
    requires x.pos.k > 0
    ensures Allowed(g, x, r) <==> CellFor(g, r).Some? && Legality(g, x.history, x.pos, CellFor(g, r).value) == Fine
    ensures CellFor(g, r).Some? ==> KindOf(g, CellFor(g, r).value) == KindAsked(r)
    ensures CellFor(g, r).None? <==> r.AskUnknown? || (r.AskPlace? && (r.x >= g.n || r.y >= g.n))
    ensures r.AskPlace? && CellFor(g, r).Some? ==> CellFor(g, r).value == CellAt(g, r.x, r.y)
  {
    hide Play, Seen, Legality;
    match r
    case AskPlace(col, row) =>
      if col < g.n && row < g.n {
        PointComesBack(g, col, row);
        PlaceableIff(g, x, CellAt(g, col, row));
      }
    case AskPass => SpecialIsFine(g, x, PASS);
    case AskResign => SpecialIsFine(g, x, RESIGN);
    case AskUnknown =>
  }

  lemma SpecialIsFine(g: Geom, x: Table, m: int)
    requires x.pos.k > 0 && m in {PASS, RESIGN}
    ensures Legality(g, x.history, x.pos, m) == Fine
  {
    hide Play, Seen;
  }

  /** A request changes the table if and only if the game is under way, the asker plays the seat to move in person, asks for
      this move, and either is late or names a permitted move; a late request records a lost turn, any other the move asked
      for. */
  lemma RequestIff(g: Geom, c: Clock, x: Table, player: string, moveNo: nat, r: Request)
    requires Kept(g, x) && TurnOpen(g, x)
    ensures Seated(x)
    ensures var y, acts := PlayRequest(g, c, x, player, moveNo, r).table, MayAsk(x, player, moveNo) && (Late(x, c) || Allowed(g, x, r));
            && (y != x <==> acts)
            && (acts ==> Writes(x, y, if Late(x, c) then Timeout else KindAsked(r), if Late(x, c) then Deadline else Person) && NextTurn(x, y, c.now))
  {
    hide Kept, Terminal, Applied, Legality, Permitted, Play, Writes, NextTurn, Allowed;
    KeptSeated(g, x);
    CellIsNamed(g, x, r);
    if MayAsk(x, player, moveNo) {
      if Late(x, c) {
        ServerMoves(g, x);
        AppliedWrites(g, c, x, TIMEOUT, Deadline);
        NextTurnIsOther(x, Applied(g, c, x, TIMEOUT, Deadline), c.now);
      } else if Allowed(g, x, r) {
        var m := CellFor(g, r).value;
        CellIsPermitted(g, x.history, x.pos, m);
        AppliedWrites(g, c, x, m, Person);
        NextTurnIsOther(x, Applied(g, c, x, m, Person), c.now);
      }
    }
  }

  /** The answer to a move that was made is its record. */
  predicate AnsweredByRecord(x: Table, a: Answered) {
    |x.moves| < |a.table.moves| && a.reply == MovePlayed(a.table.moves[|x.moves|])
  }

  /** Who is turned away before the request is looked at, in the order of the checks. */
  lemma StrangersAreTold(g: Geom, c: Clock, x: Table, player: string, moveNo: nat, r: Request)
    requires Seated(x) && (x.playing ==> !Terminal(g, x.pos))
    ensures var a, seat := PlayRequest(g, c, x, player, moveNo, r), x.seats[x.pos.toMove - 1];
            && (!x.playing ==> a.reply == NotPlaying)
            && (x.playing && (seat.bot || seat.player != player || seat.autopilot) ==> a.reply == NotYourTurn)
            && (x.playing && !seat.bot && seat.player == player && !seat.autopilot && moveNo != x.pos.moveNo ==> a.reply == StaleMove)
            && (MayAsk(x, player, moveNo) && Late(x, c) ==> a.reply == DeadlinePassed)
  {
    hide Terminal, Applied, Legality, Play;
  }

  lemma VerdictIs(g: Geom, x: Table, m: int)
    requires x.pos.k > 0 && m >= 0
    ensures Legality(g, x.history, x.pos, m) ==
              if m >= |x.pos.cells| || x.pos.cells[m] != OPEN then Occupied
              else if !IsLegal(g, x.pos, m) then Verdict.Ko
              else if !Placeable(g, x, m) then Superko
              else Fine
  {
    hide Play, Seen;
  }

  /** What the player whose turn it is, is told about the move named. */
  lemma PlayerIsTold(g: Geom, c: Clock, x: Table, player: string, moveNo: nat, r: Request)
    requires Kept(g, x) && TurnOpen(g, x) && Seated(x) && MayAsk(x, player, moveNo) && !Late(x, c)
    ensures var a := PlayRequest(g, c, x, player, moveNo, r);
            && (Allowed(g, x, r) ==> AnsweredByRecord(x, a))
            && (r.AskUnknown? || (r.AskPlace? && (r.x >= g.n || r.y >= g.n)) ==> a.reply == IllegalMove)
            && (r.AskPlace? && r.x < g.n && r.y < g.n && !Allowed(g, x, r) ==>
                  var m := CellAt(g, r.x, r.y);
                  a.reply == Refused(if m >= |x.pos.cells| || x.pos.cells[m] != OPEN then Occupied
                                     else if !IsLegal(g, x.pos, m) then Verdict.Ko else Superko))
  {
    hide Kept, Terminal, Applied, Legality, Permitted, Play, NextTurn, Placeable, Allowed, IsLegal;
    KeptSeated(g, x);
    CellIsNamed(g, x, r);
    if Allowed(g, x, r) {
      var m := CellFor(g, r).value;
      CellIsPermitted(g, x.history, x.pos, m);
      AppliedWrites(g, c, x, m, Person);
    } else if r.AskPlace? && r.x < g.n && r.y < g.n {
      VerdictIs(g, x, CellAt(g, r.x, r.y));
      PlaceNotAllowed(g, x, r);
    }
  }

  lemma PlaceNotAllowed(g: Geom, x: Table, r: Request)
    requires x.pos.k > 0 && r.AskPlace? && r.x < g.n && r.y < g.n
    ensures Allowed(g, x, r) <==> Placeable(g, x, CellAt(g, r.x, r.y))
  {
  }

  // ----- bots and timers -----

  /** A bot's answer changes the table if and only if the game is under way, it is for the current turn, and a bot or
      autopilot plays the seat to move; it records the move answered if that is permitted, and a pass if not. */
  lemma BotIff(g: Geom, c: Clock, x: Table, revision: nat, move: int)
    requires Kept(g, x) && TurnOpen(g, x)
    ensures Seated(x)
    ensures var y, seat := BotAnswer(g, c, x, revision, move), x.seats[x.pos.toMove - 1];
            var acts := x.playing && revision == x.turnSeq && (seat.bot || seat.autopilot);
            var fine := move in {PASS, RESIGN, TIMEOUT} || Placeable(g, x, move);
            && (y != x <==> acts)
            && (acts ==> Writes(x, y, if fine then KindOf(g, move) else Pass, if seat.autopilot then Autopilot else Bot) && NextTurn(x, y, c.now))
  {
    hide Kept, Terminal, Applied, Legality, Permitted, Play, Writes, NextTurn, Placeable;
    KeptSeated(g, x);
    AnyIsFine(g, x, move);
    var seat := x.seats[x.pos.toMove - 1];
    if x.playing && revision == x.turnSeq && (seat.bot || seat.autopilot) {
      ServerMoves(g, x);
      var m := if Legality(g, x.history, x.pos, move) != Fine then PASS else move;
      if m == move && m != PASS { CellIsPermitted(g, x.history, x.pos, move); }
      var source := if seat.autopilot then Autopilot else Bot;
      AppliedWrites(g, c, x, m, source);
      NextTurnIsOther(x, Applied(g, c, x, m, source), c.now);
    }
  }

  lemma AnyIsFine(g: Geom, x: Table, m: int)
    requires x.pos.k > 0
    ensures Legality(g, x.history, x.pos, m) == Fine <==> m in {PASS, RESIGN, TIMEOUT} || Placeable(g, x, m)
  {
    hide Play, Seen;
  }

  /** A timer changes the table if and only if the game is under way and it is for the current turn, which is lost then. */
  lemma TimerIff(g: Geom, c: Clock, x: Table, revision: nat)
    requires Kept(g, x) && TurnOpen(g, x)
    ensures var y, acts := TimerFired(g, c, x, revision), x.playing && revision == x.turnSeq;
            && (y != x <==> acts) && (acts ==> Writes(x, y, Timeout, Deadline) && NextTurn(x, y, c.now))
  {
    hide Kept, Terminal, Applied, Permitted, Play, Writes, NextTurn;
    KeptSeated(g, x);
    if x.playing && revision == x.turnSeq {
      ServerMoves(g, x);
      AppliedWrites(g, c, x, TIMEOUT, Deadline);
      NextTurnIsOther(x, Applied(g, c, x, TIMEOUT, Deadline), c.now);
    }
  }

  /** A seat that resigned passes when its turn comes, and the server says so. */
  lemma ResignedPasses(g: Geom, c: Clock, x: Table)
    requires Kept(g, x) && x.playing && !Terminal(g, x.pos) && x.pos.toMove in x.pos.out
    ensures Seated(x) && Writes(x, Begun(g, c, x), Pass, Resigned)
  {
    hide Kept, Terminal, Applied, Permitted, Play, Writes, NextTurn;
    KeptSeated(g, x);
    ServerMoves(g, x);
    AppliedWrites(g, c, x, PASS, Resigned);
  }

  /** A new turn of a seat still in: a search and a timer for a bot, a timer for a person with any time at all, and otherwise
      a lost turn. */
  lemma FreshTurn(g: Geom, c: Clock, x: Table)
    requires Kept(g, x) && x.playing && !Terminal(g, x.pos) && x.pos.toMove !in x.pos.out
    ensures Seated(x)
    ensures var y, z, seat := Begun(g, c, x), x.(turnBegan := c.now), x.seats[x.pos.toMove - 1];
            && (x.closed ==> y == z)
            && (!x.closed && (seat.bot || seat.autopilot) ==> y == z.(timer := Some(x.turnSeq), jobs := x.jobs + {x.turnSeq}))
            && (!x.closed && !seat.bot && !seat.autopilot && c.limit > 0 ==> y == z.(timer := Some(x.turnSeq)))
            && (!x.closed && !seat.bot && !seat.autopilot && c.limit <= 0 ==> Writes(x, y, Timeout, Deadline))
  {
    hide Terminal, Applied, Permitted, Play, Reached, BowlMatches;
    var z := x.(turnBegan := c.now);
    SameGame(g, x, z);
    ServerMoves(g, z);
    AppliedWrites(g, c, z, TIMEOUT, Deadline);
  }

  // ----- autopilot -----

  /** This player's first seat. */
  predicate PlaysSeat(seats: seq<Seat>, player: string, i: nat) {
    i < |seats| && !seats[i].bot && seats[i].player == player && forall j :: 0 <= j < i ==> seats[j].bot || seats[j].player != player
  }

  lemma {:induction false} SeatIsFound(seats: seq<Seat>, player: string, from: nat)
    requires from <= |seats| && forall j :: 0 <= j < from ==> seats[j].bot || seats[j].player != player
    ensures SeatOf(seats, player, from) > 0 ==> PlaysSeat(seats, player, SeatOf(seats, player, from) - 1)
    ensures SeatOf(seats, player, from) == 0 ==> forall j :: 0 <= j < |seats| ==> seats[j].bot || seats[j].player != player
    decreases |seats| - from
  {
    if from < |seats| && (seats[from].bot || seats[from].player != player) { SeatIsFound(seats, player, from + 1); }
  }

  lemma OneFirstSeat(seats: seq<Seat>, player: string, i: nat, j: nat)
    requires PlaysSeat(seats, player, i) && PlaysSeat(seats, player, j)
    ensures i == j
  {
  }

  /** With the seat switched and a new turn revision, but the same start of the turn. */
  function Switched(x: Table, i: nat, on: bool): Table
    requires i < |x.seats|
  {
    x.(seats := x.seats[i := x.seats[i].(autopilot := on)])
  }

  /** Handing over or taking back a seat is for its player, and does nothing else unless it is that seat's turn. Then what was
      pending for the turn is void; a bot's search and a timer start, or a timer alone for a person, whose time still counts
      from the start of the turn, and whose turn is lost if that is used up. */
  lemma AutopilotIff(g: Geom, c: Clock, x: Table, player: string, on: bool, i: nat)
    requires Kept(g, x) && TurnOpen(g, x) && PlaysSeat(x.seats, player, i)
    ensures Seated(x)
    ensures var a := AutopilotRequest(g, c, x, player, on);
            var y, z := a.table, Switched(x, i, on);
            var turn := x.pos.toMove == i + 1;
            && a.reply == (if x.playing then Done else NotPlaying)
            && (!x.playing || x.seats[i].autopilot == on ==> y == x)
            && (x.playing && x.seats[i].autopilot != on && !turn ==> y == z)
            && (x.playing && x.seats[i].autopilot != on && turn && x.closed ==> y == z.(turnSeq := x.turnSeq + 1, timer := None))
            && (x.playing && x.seats[i].autopilot != on && turn && !x.closed && on ==>
                  y == z.(turnSeq := x.turnSeq + 1, timer := Some(x.turnSeq + 1), jobs := x.jobs + {x.turnSeq + 1}))
            && (x.playing && x.seats[i].autopilot != on && turn && !x.closed && !on && c.now - x.turnBegan < c.limit ==>
                  y == z.(turnSeq := x.turnSeq + 1, timer := Some(x.turnSeq + 1)))
            && (x.playing && x.seats[i].autopilot != on && turn && !x.closed && !on && c.now - x.turnBegan >= c.limit ==>
                  Writes(x, y, Timeout, Deadline) && NextTurn(x, y, c.now))
  {
    hide Terminal, Applied, Permitted, Play, Writes, NextTurn, Reached, BowlMatches;
    SeatIsFound(x.seats, player, 0);
    var n := SeatOf(x.seats, player, 0);
    if n > 0 { OneFirstSeat(x.seats, player, i, n - 1); }
    if x.playing && x.seats[i].autopilot != on && x.pos.toMove == i + 1 && !x.closed && !on && c.now - x.turnBegan >= c.limit {
      SwitchLosesTurn(g, c, x, i);
    }
  }

  lemma SwitchLosesTurn(g: Geom, c: Clock, x: Table, i: nat)
    requires Kept(g, x) && TurnOpen(g, x) && i < |x.seats| && x.playing && x.pos.toMove == i + 1 && !x.closed && !x.seats[i].bot
    requires c.now - x.turnBegan >= c.limit && x.seats[i].autopilot
    ensures var z := Switched(x, i, false).(turnSeq := x.turnSeq + 1, timer := None);
            && Seated(z) && !Terminal(g, z.pos)
            && Writes(x, Armed(g, c, z, false), Timeout, Deadline) && NextTurn(x, Armed(g, c, z, false), c.now)
  {
    hide Terminal, Applied, Permitted, Play, Reached, BowlMatches;
    var z := Switched(x, i, false).(turnSeq := x.turnSeq + 1, timer := None);
    SameGame(g, x, z);
    ServerMoves(g, z);
    AppliedWrites(g, c, z, TIMEOUT, Deadline);
  }

  /** A player without a seat changes nothing. */
  lemma NobodysAutopilot(g: Geom, c: Clock, x: Table, player: string, on: bool)
    requires Seated(x) && (x.playing ==> !Terminal(g, x.pos)) && forall j :: 0 <= j < |x.seats| ==> x.seats[j].bot || x.seats[j].player != player
    ensures AutopilotRequest(g, c, x, player, on) == Answered(x, if x.playing then NotSeated else NotPlaying)
  {
    hide Terminal, Armed;
    SeatIsFound(x.seats, player, 0);
  }

  // ----- over whole runs -----

  /** At any moment of any run, who may end a turn by a request, and with what effect. */
  lemma AskedInRun(g: Geom, run: seq<Table>, events: seq<Event>, i: nat)
    requires IsServed(g, run, events) && i < |events| && events[i].Asked?
    ensures Seated(run[i])
    ensures var x, y, e := run[i], run[i + 1], events[i];
            var acts := MayAsk(x, e.player, e.moveNo) && (Late(x, e.clock) || Allowed(g, x, e.request));
            && (y != x <==> acts)
            && (acts && Late(x, e.clock) ==> Writes(x, y, Timeout, Deadline))
            && (acts && !Late(x, e.clock) ==> Writes(x, y, KindAsked(e.request), Person))
  {
    hide Kept, TurnOpen, Served, Begins, Writes, Allowed, MayAsk, Late;
    RunKeeps(g, run, events, i);
    assert Serves(g, run[i], events[i], run[i + 1]);
    RequestIff(g, events[i].clock, run[i], events[i].player, events[i].moveNo, events[i].request);
    AskedIsServed(g, run[i], events[i]);
  }

  lemma AskedIsServed(g: Geom, x: Table, e: Event)
    requires Ready(g, x) && e.Asked?
    ensures Served(g, x, e) == PlayRequest(g, e.clock, x, e.player, e.moveNo, e.request).table
  {
    hide PlayRequest, Terminal;
  }
}
