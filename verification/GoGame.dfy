/** A game on the server: the board it plays on, and the methods that end turns. */
module GoGame {
  import opened Options
  import opened GoBoard
  import opened GoRules
  import opened GoEngine
  import opened GoRuns
  import opened GoTurns

  class Game {
    const g: Geom
    const state: State
    var playing: bool
    var history: History
    var moves: seq<MoveRecord>
    var bowl: seq<seq<int>>
    var turnSeq: nat
    var turnBegan: int
    var timer: Option<nat>
    var jobs: set<nat>
    var seats: seq<Seat>
    var closed: bool

    ghost function Model(): Table
      reads this, state, state.cells, state.losses
    {
      Table(playing, state.Model(), history, moves, bowl, turnSeq, turnBegan, timer, jobs, seats, closed)
    }

    ghost predicate Valid()
      reads this, state, state.cells, state.losses
    {
      && Sound(g, state.Model()) && state.cells.Length == g.W() * g.W() && state.cells != state.losses && Seated(Model()) && state.k <= MAX_PLAYERS
      && |bowl| == MAX_PLAYERS + 1 && (forall v :: 0 <= v < |bowl| ==> |bowl[v]| == MAX_PLAYERS + 1)
    }

    /** Nothing waits on a finished game. */
    ghost predicate Open()
      reads this, state, state.cells, state.losses
    {
      Valid() && (playing ==> !Terminal(g, state.Model()))
    }

    /** The creator starts the game with its seats filled. */
    constructor (g: Geom, c: Clock, k: nat, koOn: bool, seats: seq<Seat>, closed: bool)
      requires 1 <= k <= MAX_PLAYERS && k == |seats|
      ensures Valid() && this.g == g && Model() == Started(g, c, k, koOn, seats, closed)
    {
      hide Begun, HashOf, EmptyBoard, OnBoard, Remember, Terminal;
      this.g := g;
      var start := new State(g, k, koOn);
      EmptyIsSound(g, k, koOn);
      state := start;
      playing, moves, turnSeq, turnBegan, timer, jobs := true, [], 0, 0, None, {};
      history := map[];
      bowl := EMPTY_BOWL;
      this.seats, this.closed := seats, closed;
      new;
      RememberSituation();
      BeginTurn(c);
    }

    /** Whether a position occurred before: the exact comparison behind the hash. */
    method SeenBefore(s: State) returns (found: bool)
      ensures found == Seen(g, history, s.Model())
    {
      var exact := Situation(s.cells[..], s.toMove);
      var bucket := Bucket(history, Key(g, s.Model()));
      for i := 0 to |bucket|
        invariant exact !in bucket[..i]
      {
        if bucket[i] == exact {
          return true;
        }
      }
      assert bucket[..|bucket|] == bucket;
      return false;
    }

    /** Adds the present situation to the history unless it is there. */
    method RememberSituation()
      modifies this`history
      ensures history == Remember(g, old(history), state.Model())
    {
      var found := SeenBefore(state);
      if !found {
        var key := Key(g, state.Model());
        history := history[key := Bucket(history, key) + [Situation(state.cells[..], state.toMove)]];
      }
    }

    /** The rules and, with ko on, superko, tried out on a copy. */
    method Judge(m: int) returns (v: Verdict)
      requires Valid()
      ensures v == Legality(g, history, state.Model(), m)
    {
      hide Play;
      if m >= 0 && (m >= state.cells.Length || state.cells[m] != OPEN) {
        return Occupied;
      }
      if !IsLegal(g, state.Model(), m) {
        return Verdict.Ko;
      }
      if m >= 0 && state.koOn {
        var t := new State.Clone(state);
        var w := new Work(g);
        var r := w.Play(t, m);
        var found := SeenBefore(t);
        if found {
          return Superko;
        }
      }
      return Fine;
    }

    /** Enters a move's captures and suicide in the bowl. */
    method Enter(n: nat, r: Result)
      requires n <= MAX_PLAYERS && |bowl| == MAX_PLAYERS + 1 && forall v :: 0 <= v < |bowl| ==> |bowl[v]| == MAX_PLAYERS + 1
      modifies this`bowl
      ensures bowl == Bowled(old(bowl), n, r)
    {
      for v: nat := 0 to |bowl|
        invariant |bowl| == |old(bowl)|
        invariant forall u :: 0 <= u < |bowl| ==> |bowl[u]| == MAX_PLAYERS + 1
        invariant forall u: nat :: u < v ==> bowl[u] == old(bowl)[u][n := old(bowl)[u][n] + CountOf(r.victims, u)]
        invariant forall u :: v <= u < |bowl| ==> bowl[u] == old(bowl)[u]
      {
        if v in r.victims {
          bowl := bowl[v := bowl[v][n := bowl[v][n] + r.victims[v]]];
        }
      }
      if r.suicide > 0 {
        bowl := bowl[n := bowl[n][n := bowl[n][n] + r.suicide]];
      }
      assert forall v: nat :: v < |bowl| ==> bowl[v] == Bowled(old(bowl), n, r)[v];
    }

    /** Makes and records the move that ends the current turn. */
    method RecordMove(m: int, source: Source) returns (rec: MoveRecord)
      requires Valid() && m < state.cells.Length && (m >= 0 ==> state.cells[m] == OPEN)
      modifies this, state, state.cells, state.losses
      ensures Valid() && closed == old(closed) && Model() == Recorded(g, old(Model()), m, source)
      ensures rec == RecordOf(g, old(state.Model()), m, source, Play(g, old(state.Model()), m).result)
    {
      hide Play, Sound, Bowled, Remember, RecordOf, Terminal, Seen, Recorded;
      ghost var x := Model();
      var s := state.Model();
      var r := PlayNow(m);
      ghost var p := state.Model();
      rec := RecordOf(g, s, m, source, r);
      Enter(s.toMove, r);
      RememberSituation();
      FileRecord(rec);
      assert state.Model() == p;
      RecordedIs(g, x, m, source);
    }

    /** Keeps the record of a move, up to the cap, and makes the turn's timer and search stale. */
    method FileRecord(rec: MoveRecord)
      requires Valid()
      modifies this`moves, this`timer, this`turnSeq
      ensures Valid()
      ensures var x := old(Model());
              Model() == x.(moves := if |x.moves| < MAX_MOVE_RECORDS then x.moves + [rec] else x.moves, timer := None, turnSeq := x.turnSeq + 1)
    {
      hide Sound;
      if |moves| < MAX_MOVE_RECORDS {
        moves := moves + [rec];
      }
      timer := None;
      turnSeq := turnSeq + 1;
    }

    /** The move on the board, with scratch space of its own. */
    method PlayNow(m: int) returns (r: Result)
      requires Valid() && m < state.cells.Length && (m >= 0 ==> state.cells[m] == OPEN)
      modifies state, state.cells, state.losses
      ensures Valid()
      ensures state.Model() == Play(g, old(state.Model()), m).after && r == Play(g, old(state.Model()), m).result
    {
      hide Play, HashOf, OnBoard;
      var w := new Work(g);
      r := w.Play(state, m);
    }

    /** Ends the current turn with `m` and starts the next one. */
    method ApplyMove(c: Clock, m: int, source: Source) returns (rec: MoveRecord)
      requires Valid() && !Terminal(g, state.Model()) && m < state.cells.Length
      requires m >= 0 ==> state.cells[m] == OPEN
      modifies this, state, state.cells, state.losses
      ensures Valid() && closed == old(closed) && Model() == Applied(g, c, old(Model()), m, source)
      ensures rec == RecordOf(g, old(state.Model()), m, source, Play(g, old(state.Model()), m).result)
      decreases 3 * g.n * g.n - state.moveNo, 0
    {
      hide Play, HashOf, OnBoard, Recorded, RecordOf, Begun, Terminal;
      NotOver(g, state.Model());
      rec := RecordMove(m, source);
      BeginTurn(c);
    }

    /** The next turn: the end of the game, a pass for a resigned seat, or the seat's clock. */
    method BeginTurn(c: Clock)
      requires Valid() && state.moveNo <= 3 * g.n * g.n
      modifies this, state, state.cells, state.losses
      ensures Valid() && closed == old(closed) && Model() == Begun(g, c, old(Model()))
      decreases 3 * g.n * g.n - state.moveNo, 2
    {
      hide Applied, Armed, HashOf, OnBoard, Terminal;
      var over := state.IsTerminal(g);
      if over {
        playing := false;
        timer := None;
        return;
      }
      if state.toMove in state.out {
        var rec := ApplyMove(c, PASS, Resigned);
        return;
      }
      turnBegan := c.now;
      ArmTurn(c, true);
    }

    /** Starts the timer and, for a bot's seat, its search. After an autopilot switch (`anew` is false) a person's
        time still counts from the start of the turn. */
    method ArmTurn(c: Clock, anew: bool)
      requires Valid() && !Terminal(g, state.Model())
      modifies this, state, state.cells, state.losses
      ensures Valid() && closed == old(closed) && Model() == Armed(g, c, old(Model()), anew)
      decreases 3 * g.n * g.n - state.moveNo, 1
    {
      hide Applied, HashOf, OnBoard, Terminal;
      if closed {
        return;
      }
      var revision := turnSeq;
      if seats[state.toMove - 1].BotControlled() {
        jobs := jobs + {revision};
      } else {
        var wait := c.limit;
        if !anew {
          wait := wait - (c.now - turnBegan);
        }
        if wait <= 0 {
          var rec := ApplyMove(c, TIMEOUT, Deadline);
          return;
        }
      }
      timer := Some(revision);
    }

    /** A player's move. */
    method PlayMove(c: Clock, player: string, moveNo: nat, r: Request) returns (reply: Reply)
      requires Open()
      modifies this, state, state.cells, state.losses
      ensures Valid() && Answered(Model(), reply) == PlayRequest(g, c, old(Model()), player, moveNo, r)
    {
      hide Applied, HashOf, OnBoard, Terminal, Legality, Play, RecordOf;
      if !playing {
        return NotPlaying;
      }
      var seat := seats[state.toMove - 1];
      if seat.bot || seat.player != player || seat.autopilot {
        return NotYourTurn;
      }
      if moveNo != state.moveNo {
        return StaleMove;
      }
      if c.now - turnBegan > c.limit {
        var rec := ApplyMove(c, TIMEOUT, Deadline);
        return DeadlinePassed;
      }
      var cell := CellFor(g, r);
      if cell.None? {
        return IllegalMove;
      }
      var v := Judge(cell.value);
      if v != Fine {
        return Refused(v);
      }
      FineIsOpen(g, history, state.Model(), cell.value);
      var rec := ApplyMove(c, cell.value, Person);
      return MovePlayed(rec);
    }

    /** A bot's search is over. */
    method BotMoveChosen(c: Clock, revision: nat, move: int)
      requires Open()
      modifies this, state, state.cells, state.losses
      ensures Valid() && Model() == BotAnswer(g, c, old(Model()), revision, move)
    {
      hide Applied, HashOf, OnBoard, Terminal, Legality, Play;
      if !playing || turnSeq != revision {
        return;
      }
      var seat := seats[state.toMove - 1];
      if !seat.BotControlled() {
        return;
      }
      var m := move;
      var v := Judge(m);
      if v != Fine {
        m := PASS;
      } else {
        FineIsOpen(g, history, state.Model(), m);
      }
      var rec := ApplyMove(c, m, if seat.autopilot then Autopilot else Bot);
    }

    /** A turn's timer goes off. */
    method TimedOut(c: Clock, revision: nat)
      requires Open()
      modifies this, state, state.cells, state.losses
      ensures Valid() && Model() == TimerFired(g, c, old(Model()), revision)
    {
      hide Applied, HashOf, OnBoard, Terminal;
      if !playing || turnSeq != revision {
        return;
      }
      var rec := ApplyMove(c, TIMEOUT, Deadline);
    }

    method Close()
      requires Valid()
      modifies this
      ensures Valid() && Model() == ShutDown(old(Model()))
    {
      if !closed {
        closed := true;
      }
      timer := None;
    }

    method FindSeat(player: string) returns (n: nat)
      ensures n == SeatOf(seats, player, 0)
    {
      for i := 0 to |seats|
        invariant SeatOf(seats, player, 0) == SeatOf(seats, player, i)
      {
        if !seats[i].bot && seats[i].player == player {
          return i + 1;
        }
      }
      return 0;
    }

    /** A player hands the seat to a bot or takes it back. */
    method SetAutopilot(c: Clock, player: string, on: bool) returns (reply: Reply)
      requires Open()
      modifies this, state, state.cells, state.losses
      ensures Valid() && Answered(Model(), reply) == AutopilotRequest(g, c, old(Model()), player, on)
    {
      hide Armed, HashOf, OnBoard, Terminal;
      if !playing {
        return NotPlaying;
      }
      var n := FindSeat(player);
      if n == 0 {
        return NotSeated;
      }
      if seats[n - 1].autopilot != on {
        seats := seats[n - 1 := seats[n - 1].(autopilot := on)];
        if state.toMove == n && n !in state.out {
          turnSeq := turnSeq + 1;
          timer := None;
          ArmTurn(c, false);
        }
      }
      return Done;
    }
  }

  lemma FineIsOpen(g: Geom, h: History, s: Position, m: int)
    requires s.k > 0 && Legality(g, h, s, m) == Fine
    ensures m < |s.cells| && (m >= 0 ==> s.cells[m] == OPEN)
  {
    hide Play;
  }
}
