/** The turn machine of a game on a server: moves, bot searches, deadlines, resignations and autopilot, all tied to
    a turn revision. */
module GoTurns {
  import opened Arithmetic
  import opened Options
  import opened GoBoard
  import opened GoRules
  import opened GoRuns
  import opened GoStones

  const MAX_MOVE_RECORDS := 3 * 19 * 19

  /** A seat of a started game is a bot's or a person's; a person's may be on autopilot. */
  datatype Seat = Seat(player: string, bot: bool, autopilot: bool) {
    predicate BotControlled() { bot || autopilot }
  }

  datatype Source = Person | Bot | Autopilot | Resigned | Deadline

  datatype Kind = PlaceAt(x: int, y: int) | Pass | Resign | Timeout

  datatype MoveRecord = MoveRecord(moveNo: nat, seat: nat, kind: Kind, source: Source, captured: nat, suicide: nat, victims: seq<nat>)

  /** What the server keeps for a game. `timer` is the turn revision a running timer will report, `jobs` the revisions
      for which a bot search was started. */
  datatype Table = Table(
    playing: bool, pos: Position, history: History, moves: seq<MoveRecord>, bowl: seq<seq<int>>,
    turnSeq: nat, turnBegan: int, timer: Option<nat>, jobs: set<nat>, seats: seq<Seat>, closed: bool)

  /** One reading of the clock and a person's time per turn. */
  datatype Clock = Clock(now: int, limit: int)

  function KindOf(g: Geom, m: int): Kind {
    if m >= 0 then PlaceAt(m % g.W() - 1, m / g.W() - 1)
    else if m == RESIGN then Resign
    else if m == TIMEOUT then Timeout
    else Pass
  }

  function Bowled(bowl: seq<seq<int>>, n: nat, r: Result): (b: seq<seq<int>>)
    ensures |b| == |bowl|
    ensures forall v: nat :: v < |bowl| ==> |b[v]| == |bowl[v]|
  {
    seq(|bowl|, v requires 0 <= v < |bowl| =>
      if n < |bowl[v]| then bowl[v][n := bowl[v][n] + CountOf(r.victims, v) + (if v == n then r.suicide else 0)] else bowl[v])
  }

  function RecordOf(g: Geom, s: Position, m: int, source: Source, r: Result): MoveRecord {
    MoveRecord(s.moveNo, s.toMove, KindOf(g, m), source, r.captured + r.suicide, r.suicide, seq(s.k, v => CountOf(r.victims, v + 1)))
  }

  const NO_LOSSES: seq<int> := [0, 0, 0, 0, 0, 0, 0, 0, 0]

  const EMPTY_BOWL: seq<seq<int>> :=
    [NO_LOSSES, NO_LOSSES, NO_LOSSES, NO_LOSSES, NO_LOSSES, NO_LOSSES, NO_LOSSES, NO_LOSSES, NO_LOSSES]

  /** Enough for the turn machine to run at all. */
  predicate Seated(x: Table) {
    1 <= x.pos.toMove <= x.pos.k == |x.seats|
  }

  /** The move made, recorded and remembered; the old turn's timer stopped and a new turn revision. */
  ghost function Recorded(g: Geom, x: Table, m: int, source: Source): (y: Table)
    requires Seated(x) && m < |x.pos.cells|
    ensures Seated(y) && y.pos.moveNo == x.pos.moveNo + 1
  {
    var p := Play(g, x.pos, m);
    NextSeat(x.pos.k, x.pos.toMove);
    x.(pos := p.after, history := Remember(g, x.history, p.after), bowl := Bowled(x.bowl, x.pos.toMove, p.result),
       moves := if |x.moves| < MAX_MOVE_RECORDS then x.moves + [RecordOf(g, x.pos, m, source, p.result)] else x.moves,
       timer := None, turnSeq := x.turnSeq + 1)
  }

  ghost function Applied(g: Geom, c: Clock, x: Table, m: int, source: Source): (y: Table)
    requires Seated(x) && m < |x.pos.cells| && !Terminal(g, x.pos)
    decreases 3 * g.n * g.n - x.pos.moveNo, 0
  {
    Begun(g, c, Recorded(g, x, m, source))
  }

  /** The next turn: the game is over, or a resigned seat passes, or the seat's clock starts. */
  ghost function Begun(g: Geom, c: Clock, x: Table): (y: Table)
    requires Seated(x) && x.pos.moveNo <= 3 * g.n * g.n
    decreases 3 * g.n * g.n - x.pos.moveNo, 2
  {
    if Terminal(g, x.pos) then x.(playing := false, timer := None)
    else if x.pos.toMove in x.pos.out then Applied(g, c, x, PASS, Resigned)
    else Armed(g, c, x.(turnBegan := c.now), true)
  }

  /** Starts the timer, and a bot's search, for the current turn revision; a person out of time loses the turn. */
  ghost function Armed(g: Geom, c: Clock, x: Table, anew: bool): (y: Table)
    requires Seated(x) && !Terminal(g, x.pos)
    decreases 3 * g.n * g.n - x.pos.moveNo, 1
  {
    if x.closed then x
    else if x.seats[x.pos.toMove - 1].BotControlled() then x.(timer := Some(x.turnSeq), jobs := x.jobs + {x.turnSeq})
    else if c.limit - (if anew then 0 else c.now - x.turnBegan) <= 0 then Applied(g, c, x, TIMEOUT, Deadline)
    else x.(timer := Some(x.turnSeq))
  }

  lemma RecordedIs(g: Geom, x: Table, m: int, source: Source)
    requires Seated(x) && m < |x.pos.cells|
    ensures var p := Play(g, x.pos, m);
            Recorded(g, x, m, source)
            == x.(pos := p.after, history := Remember(g, x.history, p.after), bowl := Bowled(x.bowl, x.pos.toMove, p.result),
                  moves := if |x.moves| < MAX_MOVE_RECORDS then x.moves + [RecordOf(g, x.pos, m, source, p.result)] else x.moves,
                  timer := None, turnSeq := x.turnSeq + 1)
  {
    hide Play, Remember, Bowled, RecordOf;
  }

  lemma NotOver(g: Geom, s: Position)
    requires !Terminal(g, s)
    ensures s.moveNo < 3 * g.n * g.n
  {
  }

  // ----- what the outside can do -----

  ghost function Started(g: Geom, c: Clock, k: nat, koOn: bool, seats: seq<Seat>, closed: bool): Table
    requires 1 <= k == |seats|
  {
    var s := Start(g, k, koOn);
    Begun(g, c, Table(true, s, Remember(g, map[], s), [], EMPTY_BOWL, 0, 0, None, {}, seats, closed))
  }

  datatype Request = AskPass | AskResign | AskPlace(x: nat, y: nat) | AskUnknown

  datatype Reply =
    | NotPlaying | NotYourTurn | StaleMove | DeadlinePassed | IllegalMove | NotSeated | Done
    | Refused(why: Verdict)
    | MovePlayed(record: MoveRecord)

  /** The cell a request names, if it names one on the board. */
  function CellFor(g: Geom, r: Request): Option<int> {
    match r
    case AskPass => Some(PASS)
    case AskResign => Some(RESIGN)
    case AskPlace(x, y) => if x >= g.n || y >= g.n then None else Some((y + 1) * g.W() + x + 1)
    case AskUnknown => None
  }

  datatype Answered = Answered(table: Table, reply: Reply)

  ghost function PlayRequest(g: Geom, c: Clock, x: Table, player: string, moveNo: nat, r: Request): Answered
    requires Seated(x) && (x.playing ==> !Terminal(g, x.pos))
  {
    if !x.playing then Answered(x, NotPlaying)
    else
      var seat := x.seats[x.pos.toMove - 1];
      if seat.bot || seat.player != player || seat.autopilot then Answered(x, NotYourTurn)
      else if moveNo != x.pos.moveNo then Answered(x, StaleMove)
      else if c.now - x.turnBegan > c.limit then Answered(Applied(g, c, x, TIMEOUT, Deadline), DeadlinePassed)
      else
        var cell := CellFor(g, r);
        if cell.None? then Answered(x, IllegalMove)
        else if Legality(g, x.history, x.pos, cell.value) != Fine then Answered(x, Refused(Legality(g, x.history, x.pos, cell.value)))
        else
          Answered(Applied(g, c, x, cell.value, Person),
                   MovePlayed(RecordOf(g, x.pos, cell.value, Person, Play(g, x.pos, cell.value).result)))
  }

  /** A bot's answer counts only for the turn revision it was asked for, while a bot still controls the seat. */
  ghost function BotAnswer(g: Geom, c: Clock, x: Table, revision: nat, move: int): Table
    requires Seated(x) && (x.playing ==> !Terminal(g, x.pos))
  {
    if !x.playing || x.turnSeq != revision then x
    else
      var seat := x.seats[x.pos.toMove - 1];
      if !seat.BotControlled() then x
      else
        var m := if Legality(g, x.history, x.pos, move) != Fine then PASS else move;
        Applied(g, c, x, m, if seat.autopilot then Autopilot else Bot)
  }

  ghost function TimerFired(g: Geom, c: Clock, x: Table, revision: nat): Table
    requires Seated(x) && (x.playing ==> !Terminal(g, x.pos))
  {
    if !x.playing || x.turnSeq != revision then x else Applied(g, c, x, TIMEOUT, Deadline)
  }

  /** The seat of a player, 0 if none. */
  function SeatOf(seats: seq<Seat>, player: string, i: nat): (n: nat)
    requires i <= |seats|
    ensures n <= |seats|
    decreases |seats| - i
  {
    if i == |seats| then 0
    else if !seats[i].bot && seats[i].player == player then i + 1
    else SeatOf(seats, player, i + 1)
  }

  /** Switching the seat to move discards what is pending for the turn and starts its clock again. */
  ghost function AutopilotRequest(g: Geom, c: Clock, x: Table, player: string, on: bool): Answered
    requires Seated(x) && (x.playing ==> !Terminal(g, x.pos))
  {
    var n := SeatOf(x.seats, player, 0);
    if !x.playing then Answered(x, NotPlaying)
    else if n == 0 then Answered(x, NotSeated)
    else if x.seats[n - 1].autopilot == on then Answered(x, Done)
    else
      var y := x.(seats := x.seats[n - 1 := x.seats[n - 1].(autopilot := on)]);
      if x.pos.toMove == n && n !in x.pos.out then
        Answered(Armed(g, c, y.(turnSeq := y.turnSeq + 1, timer := None), false), Done)
      else Answered(y, Done)
  }

  /** The server shuts down: it stops the timers and starts no more. */
  function ShutDown(x: Table): Table {
    x.(closed := true, timer := None)
  }

  // ----- the invariant -----

  /** Record `i` tells what move `i` of the game did. */
  ghost predicate Tells(g: Geom, r: MoveRecord, t: Transcript, i: nat)
    requires i < |t.moves| < |t.run|
  {
    var s := t.run[i];
    s.k > 0 && t.moves[i] < |s.cells| && r == RecordOf(g, s, t.moves[i], r.source, Play(g, s, t.moves[i]).result)
  }

  /** The table shows the end of game `t`, with one record for each move. */
  ghost predicate ShowsGame(g: Geom, x: Table, t: Transcript) {
    && IsGame(g, x.pos.k, x.pos.koOn, t)
    && x.pos == t.run[|t.moves|] && x.history == t.history[|t.moves|]
    && |x.moves| == |t.moves|
    && forall i :: 0 <= i < |t.moves| ==> Tells(g, x.moves[i], t, i)
  }

  ghost predicate Reached(g: Geom, x: Table) {
    exists t :: ShowsGame(g, x, t)
  }

  function Sum(s: seq<int>): int {
    if s == [] then 0 else Sum(s[..|s| - 1]) + s[|s| - 1]
  }

  /** Each victim's row of the bowl sums to that seat's losses. */
  predicate BowlMatches(x: Table) {
    && |x.bowl| == |x.pos.losses| == MAX_PLAYERS + 1
    && forall v :: 0 <= v < |x.bowl| ==> |x.bowl[v]| == MAX_PLAYERS + 1 && (1 <= v <= x.pos.k ==> Sum(x.bowl[v]) == x.pos.losses[v])
  }

  /** A game is under way until it is over. Then it does not wait on a resigned seat and, unless the server is closed, has a
      timer for the current turn revision, and a search for it if a bot is to move. Otherwise no timer is left. */
  predicate TurnOpen(g: Geom, x: Table) {
    && (x.playing <==> !Terminal(g, x.pos))
    && x.timer == (if x.playing && !x.closed then Some(x.turnSeq) else None)
    && (x.playing ==>
          && x.pos.toMove !in x.pos.out
          && (x.closed || !Seated(x) || !x.seats[x.pos.toMove - 1].BotControlled() || x.turnSeq in x.jobs))
  }

  ghost predicate Kept(g: Geom, x: Table) {
    && g.n <= 19 && Seated(x) && Reached(g, x) && BowlMatches(x)
    && (forall j <- x.jobs :: j <= x.turnSeq)
  }

  lemma {:induction false} SumUpdate(s: seq<int>, i: nat, v: int)
    requires i < |s|
    ensures Sum(s[i := v]) == Sum(s) - s[i] + v
  {
    var last := |s| - 1;
    if i == last {
      assert s[i := v][..last] == s[..last];
    } else {
      SumUpdate(s[..last], i, v);
      assert s[i := v][..last] == s[..last][i := v];
    }
  }

  /** A permitted move extends the game shown and its records. */
  lemma RecordedReached(g: Geom, x: Table, m: int, source: Source)
    requires Kept(g, x) && m < |x.pos.cells| && Permitted(g, x.history, x.pos, m) && !Terminal(g, x.pos)
    ensures Reached(g, Recorded(g, x, m, source))
  {
    hide Play, Remember, Start, Permitted, HashOf, Bowled, RecordOf, Follows, Tells, BowlMatches, Sound, NoDead;
    var t :| ShowsGame(g, x, t);
    var y := Recorded(g, x, m, source);
    var n := |t.moves|;
    GameIsHealthy(g, x.pos.k, x.pos.koOn, t, n);
    BoardCap(g.n);
    NotOver(g, x.pos);
    var u := Transcript(t.run + [y.pos], t.moves + [m], t.history + [y.history]);
    forall i | 0 <= i < |u.moves| ensures Follows(g, u, i) && Tells(g, y.moves[i], u, i) {
      if i < n { ToldStill(g, x.moves[i], t, u, i); } else { ToldNow(g, x, m, source, u); }
    }
    assert ShowsGame(g, y, u);
  }

  /** A longer transcript still has the move and its record. */
  lemma ToldStill(g: Geom, r: MoveRecord, t: Transcript, u: Transcript, i: nat)
    requires i < |t.moves| < |t.run| == |t.history| && |u.moves| < |u.run| == |u.history|
    requires t.run <= u.run && t.moves <= u.moves && t.history <= u.history
    requires Follows(g, t, i) && Tells(g, r, t, i)
    ensures Follows(g, u, i) && Tells(g, r, u, i)
  {
    hide Play, Remember, Permitted, RecordOf;
  }

  lemma ToldNow(g: Geom, x: Table, m: int, source: Source, u: Transcript)
    requires Seated(x) && m < |x.pos.cells| && Permitted(g, x.history, x.pos, m) && |x.moves| < MAX_MOVE_RECORDS
    requires var n := |x.moves|;
             && |u.moves| == n + 1 && |u.run| == |u.history| == n + 2 && u.moves[n] == m
             && u.run[n] == x.pos && u.history[n] == x.history
             && u.run[n + 1] == Recorded(g, x, m, source).pos && u.history[n + 1] == Recorded(g, x, m, source).history
    ensures Follows(g, u, |x.moves|) && |Recorded(g, x, m, source).moves| == |x.moves| + 1
    ensures Tells(g, Recorded(g, x, m, source).moves[|x.moves|], u, |x.moves|)
  {
    hide Play, Remember, Permitted, Bowled;
  }

  lemma BoardCap(n: nat)
    requires n <= 19
    ensures 3 * n * n <= MAX_MOVE_RECORDS
  {
    assert n * n <= 19 * n;
    assert 3 * n * n == 3 * (n * n);
  }

  lemma BowlRow(bowl: seq<seq<int>>, n: nat, r: Result, v: nat)
    requires v < |bowl| && n < |bowl[v]|
    ensures Sum(Bowled(bowl, n, r)[v]) == Sum(bowl[v]) + CountOf(r.victims, v) + (if v == n then r.suicide else 0)
  {
    SumUpdate(bowl[v], n, bowl[v][n] + CountOf(r.victims, v) + (if v == n then r.suicide else 0));
  }

  lemma RecordedBowl(g: Geom, x: Table, m: int, source: Source)
    requires Kept(g, x) && m < |x.pos.cells| && Permitted(g, x.history, x.pos, m)
    ensures BowlMatches(Recorded(g, x, m, source))
  {
    hide Play, Remember, Start, Permitted, HashOf, OnBoard, Bowled, Sum, StonesOf, CountOf, NoDead, Follows;
    var t :| ShowsGame(g, x, t);
    GameIsHealthy(g, x.pos.k, x.pos.koOn, t, |t.moves|);
    PermittedIsOpen(g, x.history, x.pos, m);
    var y := Recorded(g, x, m, source);
    var r := Play(g, x.pos, m).result;
    PlayKeepsSound(g, x.pos, m);
    forall v | 0 <= v < |y.bowl| ensures |y.bowl[v]| == MAX_PLAYERS + 1 && (1 <= v <= x.pos.k ==> Sum(y.bowl[v]) == y.pos.losses[v]) {
      if 1 <= v <= x.pos.k {
        PlayConservesStones(g, x.pos, m, v);
        BowlRow(x.bowl, x.pos.toMove, r, v);
      }
    }
  }

  lemma RecordedKept(g: Geom, x: Table, m: int, source: Source)
    requires Kept(g, x) && m < |x.pos.cells| && Permitted(g, x.history, x.pos, m) && !Terminal(g, x.pos)
    ensures Kept(g, Recorded(g, x, m, source))
  {
    hide Play, Remember, Permitted, Terminal, Reached, BowlMatches;
    RecordedReached(g, x, m, source);
    RecordedBowl(g, x, m, source);
  }

  /** Ending a turn leads, through however many passes and lost turns, to an open turn or a finished game. */
  lemma {:induction false} AppliedKeeps(g: Geom, c: Clock, x: Table, m: int, source: Source)
    requires Kept(g, x) && m < |x.pos.cells| && Permitted(g, x.history, x.pos, m) && x.playing && !Terminal(g, x.pos)
    ensures Kept(g, Applied(g, c, x, m, source)) && TurnOpen(g, Applied(g, c, x, m, source))
    ensures Applied(g, c, x, m, source).turnSeq > x.turnSeq
    decreases 3 * g.n * g.n - x.pos.moveNo, 0
  {
    hide Recorded, Permitted, Kept;
    KeptSeated(g, x);
    RecordedKept(g, x, m, source);
    RecordedFields(g, x, m, source);
    BegunKeeps(g, c, Recorded(g, x, m, source));
  }

  lemma RecordedFields(g: Geom, x: Table, m: int, source: Source)
    requires Seated(x) && m < |x.pos.cells|
    ensures var y := Recorded(g, x, m, source); y.turnSeq == x.turnSeq + 1 && y.playing == x.playing && y.timer == None
  {
    hide Play, Remember;
  }

  lemma {:induction false} BegunKeeps(g: Geom, c: Clock, x: Table)
    requires Kept(g, x) && x.playing && x.pos.moveNo <= 3 * g.n * g.n && x.timer == None
    ensures Kept(g, Begun(g, c, x)) && TurnOpen(g, Begun(g, c, x)) && Begun(g, c, x).turnSeq >= x.turnSeq
    decreases 3 * g.n * g.n - x.pos.moveNo, 2
  {
    hide Recorded, Permitted, Terminal, BowlMatches, ShowsGame, Applied;
    if Terminal(g, x.pos) {
      SameGame(g, x, x.(playing := false, timer := None));
    } else if x.pos.toMove in x.pos.out {
      ServerMoves(g, x);
      AppliedKeeps(g, c, x, PASS, Resigned);
    } else {
      SameGame(g, x, x.(turnBegan := c.now));
      ArmedKeeps(g, c, x.(turnBegan := c.now), true);
    }
  }

  lemma ServerMoves(g: Geom, x: Table)
    requires Seated(x)
    ensures Permitted(g, x.history, x.pos, PASS) && Permitted(g, x.history, x.pos, TIMEOUT)
  {
  }

  lemma SameGame(g: Geom, x: Table, y: Table)
    requires Kept(g, x) && Seated(y) && y.pos == x.pos && y.history == x.history && y.moves == x.moves && y.bowl == x.bowl
    requires x.turnSeq <= y.turnSeq && forall j <- y.jobs :: j in x.jobs || j == y.turnSeq
    ensures Kept(g, y)
  {
    hide IsGame, Tells;
    var t :| ShowsGame(g, x, t);
    assert ShowsGame(g, y, t);
  }

  lemma {:induction false} ArmedKeeps(g: Geom, c: Clock, x: Table, anew: bool)
    requires Kept(g, x) && x.playing && !Terminal(g, x.pos) && x.pos.toMove !in x.pos.out && x.timer == None
    ensures Kept(g, Armed(g, c, x, anew)) && TurnOpen(g, Armed(g, c, x, anew)) && Armed(g, c, x, anew).turnSeq >= x.turnSeq
    decreases 3 * g.n * g.n - x.pos.moveNo, 1
  {
    hide Recorded, Permitted, Terminal, BowlMatches, ShowsGame, Applied;
    if x.closed {
    } else if x.seats[x.pos.toMove - 1].BotControlled() {
      SameGame(g, x, x.(timer := Some(x.turnSeq), jobs := x.jobs + {x.turnSeq}));
    } else if c.limit - (if anew then 0 else c.now - x.turnBegan) <= 0 {
      ServerMoves(g, x);
      AppliedKeeps(g, c, x, TIMEOUT, Deadline);
    } else {
      SameGame(g, x, x.(timer := Some(x.turnSeq)));
    }
  }

  // ----- every request keeps the invariant -----

  lemma StartedKeeps(g: Geom, c: Clock, k: nat, koOn: bool, seats: seq<Seat>, closed: bool)
    requires g.n <= 19 && 1 <= k <= MAX_PLAYERS && k == |seats|
    ensures Kept(g, Started(g, c, k, koOn, seats, closed)) && TurnOpen(g, Started(g, c, k, koOn, seats, closed))
  {
    hide Remember, Terminal, EmptyBoard;
    var s := Start(g, k, koOn);
    var x := Table(true, s, Remember(g, map[], s), [], EMPTY_BOWL, 0, 0, None, {}, seats, closed);
    assert ShowsGame(g, x, Transcript([s], [], [x.history]));
    forall v | 1 <= v <= k ensures Sum(x.bowl[v]) == s.losses[v] { ZeroSum(x.bowl[v]); }
    BegunKeeps(g, c, x);
  }

  lemma {:induction false} ZeroSum(s: seq<int>)
    requires forall i :: 0 <= i < |s| ==> s[i] == 0
    ensures Sum(s) == 0
  {
    if s != [] { ZeroSum(s[..|s| - 1]); }
  }

  lemma CellIsPermitted(g: Geom, h: History, s: Position, m: int)
    requires s.k > 0 && Legality(g, h, s, m) == Fine
    ensures m < |s.cells| && Permitted(g, h, s, m)
  {
    hide Play;
  }

  lemma PlayRequestKeeps(g: Geom, c: Clock, x: Table, player: string, moveNo: nat, r: Request)
    requires Kept(g, x) && TurnOpen(g, x)
    ensures var a := PlayRequest(g, c, x, player, moveNo, r);
            Kept(g, a.table) && TurnOpen(g, a.table) && (a.table == x || a.table.turnSeq > x.turnSeq)
  {
    hide Kept, Terminal, Applied, Legality, Permitted, Play;
    KeptSeated(g, x);
    if x.playing {
      ServerMoves(g, x);
      AppliedKeeps(g, c, x, TIMEOUT, Deadline);
      var cell := CellFor(g, r);
      if cell.Some? && Legality(g, x.history, x.pos, cell.value) == Fine {
        CellIsPermitted(g, x.history, x.pos, cell.value);
        AppliedKeeps(g, c, x, cell.value, Person);
      }
    }
  }

  lemma KeptSeated(g: Geom, x: Table)
    requires Kept(g, x)
    ensures Seated(x)
  {
  }

  /** The record cap is never reached. */
  lemma RoomForRecord(g: Geom, x: Table)
    requires Kept(g, x) && !Terminal(g, x.pos)
    ensures |x.moves| < MAX_MOVE_RECORDS
  {
    hide Terminal, Start, Follows, Tells, BowlMatches;
    var t :| ShowsGame(g, x, t);
    GameIsHealthy(g, x.pos.k, x.pos.koOn, t, |t.moves|);
    BoardCap(g.n);
    NotOver(g, x.pos);
  }

  /** A bot's answer or a timer of another turn revision changes nothing; any other ends the turn. */
  lemma BotAnswerKeeps(g: Geom, c: Clock, x: Table, revision: nat, move: int)
    requires Kept(g, x) && TurnOpen(g, x)
    ensures var y := BotAnswer(g, c, x, revision, move);
            && Kept(g, y) && TurnOpen(g, y) && y.turnSeq >= x.turnSeq
            && (revision != x.turnSeq || !x.playing || !x.seats[x.pos.toMove - 1].BotControlled() <==> y.turnSeq == x.turnSeq)
            && (y.turnSeq == x.turnSeq <==> y == x)
  {
    hide Kept, Terminal, Applied, Legality, Permitted, Play;
    KeptSeated(g, x);
    if x.playing {
      ServerMoves(g, x);
      var source := if x.seats[x.pos.toMove - 1].autopilot then Autopilot else Bot;
      AppliedKeeps(g, c, x, PASS, source);
      if Legality(g, x.history, x.pos, move) == Fine {
        CellIsPermitted(g, x.history, x.pos, move);
        AppliedKeeps(g, c, x, move, source);
      }
    }
  }

  lemma TimerFiredKeeps(g: Geom, c: Clock, x: Table, revision: nat)
    requires Kept(g, x) && TurnOpen(g, x)
    ensures var y := TimerFired(g, c, x, revision);
            && Kept(g, y) && TurnOpen(g, y) && y.turnSeq >= x.turnSeq
            && (revision != x.turnSeq || !x.playing <==> y.turnSeq == x.turnSeq) && (y.turnSeq == x.turnSeq <==> y == x)
  {
    hide Kept, Terminal, Applied, Permitted, Play;
    KeptSeated(g, x);
    if x.playing {
      ServerMoves(g, x);
      AppliedKeeps(g, c, x, TIMEOUT, Deadline);
    }
  }

  lemma AutopilotRequestKeeps(g: Geom, c: Clock, x: Table, player: string, on: bool)
    requires Kept(g, x) && TurnOpen(g, x)
    ensures var a := AutopilotRequest(g, c, x, player, on);
            && Kept(g, a.table) && TurnOpen(g, a.table) && a.table.turnSeq >= x.turnSeq
  {
    hide Terminal, Applied, Armed, Permitted, Play, Reached, BowlMatches;
    var n := SeatOf(x.seats, player, 0);
    if x.playing && n != 0 && x.seats[n - 1].autopilot != on {
      var y := x.(seats := x.seats[n - 1 := x.seats[n - 1].(autopilot := on)]);
      SameGame(g, x, y);
      if x.pos.toMove == n && n !in x.pos.out {
        var z := y.(turnSeq := y.turnSeq + 1, timer := None);
        SameGame(g, x, z);
        ArmedKeeps(g, c, z, false);
      }
    }
  }

  lemma ShutDownKeeps(g: Geom, x: Table)
    requires Kept(g, x) && TurnOpen(g, x)
    ensures Kept(g, ShutDown(x)) && TurnOpen(g, ShutDown(x))
  {
    hide Terminal, Reached, BowlMatches;
    SameGame(g, x, ShutDown(x));
  }

  /** Nothing is dropped: move `i` has record `i`, made by seat `i mod k + 1`. */
  lemma RecordsAreComplete(g: Geom, x: Table, i: nat)
    requires Kept(g, x) && i < |x.moves|
    ensures |x.moves| == x.pos.moveNo
    ensures x.moves[i].moveNo == i && x.moves[i].seat == i % x.pos.k + 1
  {
    hide Play, Start;
    var t :| ShowsGame(g, x, t);
    GameIsHealthy(g, x.pos.k, x.pos.koOn, t, i);
    GameIsHealthy(g, x.pos.k, x.pos.koOn, t, |t.moves|);
    assert Tells(g, x.moves[i], t, i);
  }

  /** Records account for the board: `captured` counts the stones that left it, `victims` and `suicide` the losses of
      each seat. */
  lemma RecordsAccount(g: Geom, x: Table, t: Transcript, i: nat, v: nat)
    requires ShowsGame(g, x, t) && i < |x.moves| && 1 <= v <= x.pos.k
    ensures var r, s, s' := x.moves[i], t.run[i], t.run[i + 1];
            && r.captured == |AllStones(s.cells)| + (if r.kind.PlaceAt? then 1 else 0) - |AllStones(s'.cells)|
            && |r.victims| == x.pos.k && |s.losses| == |s'.losses| == MAX_PLAYERS + 1
            && s'.losses[v] - s.losses[v] == r.victims[v - 1] + (if v == r.seat then r.suicide else 0)
  {
    hide Start, AllStones, StonesOf, HashOf, OnBoard, NoDead, Remember, Legality, PlaceStone;
    var s, m := t.run[i], t.moves[i];
    GameIsHealthy(g, x.pos.k, x.pos.koOn, t, i);
    GameIsHealthy(g, x.pos.k, x.pos.koOn, t, i + 1);
    assert Follows(g, t, i) && Tells(g, x.moves[i], t, i);
    PermittedIsOpen(g, t.history[i], s, m);
    PlayConservesStones(g, s, m, v);
    if m >= 0 {
      PermittedIsPlaced(g, t.history[i], s, m);
      PlayCountsStones(g, s, m);
    }
  }

  lemma PermittedIsPlaced(g: Geom, h: History, s: Position, m: int)
    requires s.k > 0 && Permitted(g, h, s, m) && m >= 0
    ensures Places(s, m) && m < |s.cells| && s.cells[m] == OPEN
  {
    hide Play;
  }

  /** A point named in a request comes back in the record. */
  lemma PointComesBack(g: Geom, x: nat, y: nat)
    requires x < g.n && y < g.n
    ensures CellFor(g, AskPlace(x, y)).Some? && IsPoint(g.n, CellFor(g, AskPlace(x, y)).value)
    ensures KindOf(g, CellFor(g, AskPlace(x, y)).value) == PlaceAt(x, y)
  {
    var w, m := g.W(), (y + 1) * g.W() + x + 1;
    Divided(w, m, y + 1);
    MulGrows(0, y + 1, w);
  }
}
