/** Whole games: a transcript of positions and moves, with the history that situational superko consults. */
module GoRuns {
  import opened Arithmetic
  import opened GoBoard
  import opened GoRules
  import opened GoAlive
  import opened GoKo
  import opened GoScore
  import opened GoStones
  import opened Words

  /** The exact board and the seat to move. */
  datatype Situation = Situation(cells: Board, toMove: nat)

  /** Situations by hash key; a bucket lists the exact situations that share one. */
  type History = map<Word, seq<Situation>>

  function SituationOf(s: Position): Situation {
    Situation(s.cells, s.toMove)
  }

  function Bucket<K(==)>(h: map<K, seq<Situation>>, key: K): seq<Situation> {
    if key in h then h[key] else []
  }

  predicate Listed(h: History, key: Word, x: Situation) {
    x in Bucket(h, key)
  }

  predicate Seen(g: Geom, h: History, s: Position) {
    Listed(h, Key(g, s), SituationOf(s))
  }

  function Remember(g: Geom, h: History, s: Position): History {
    if Seen(g, h, s) then h else h[Key(g, s) := Bucket(h, Key(g, s)) + [SituationOf(s)]]
  }

  datatype Verdict = Fine | Occupied | Ko | Superko

  /** The server's legality check: the rules plus, with ko on, situational superko. */
  ghost function Legality(g: Geom, h: History, s: Position, m: int): (v: Verdict)
    requires s.k > 0
    ensures v == Fine ==> m < |s.cells|
  {
    if m >= 0 && (m >= |s.cells| || s.cells[m] != OPEN) then Occupied
    else if !IsLegal(g, s, m) then Ko
    else if m >= 0 && s.koOn && Seen(g, h, Play(g, s, m).after) then Superko
    else Fine
  }

  /** A move that ends a turn: one that passed the check, or a pass or timeout the server enters itself. */
  ghost predicate Permitted(g: Geom, h: History, s: Position, m: int)
    requires s.k > 0
  {
    m == PASS || m == TIMEOUT || Legality(g, h, s, m) == Fine
  }

  datatype Transcript = Transcript(run: seq<Position>, moves: seq<int>, history: seq<History>)

  ghost predicate Follows(g: Geom, t: Transcript, i: nat)
    requires i < |t.moves| < |t.run| && |t.run| == |t.history|
  {
    var s, m := t.run[i], t.moves[i];
    && s.k > 0 && Permitted(g, t.history[i], s, m) && m < |s.cells|
    && t.run[i + 1] == Play(g, s, m).after
    && t.history[i + 1] == Remember(g, t.history[i], t.run[i + 1])
  }

  ghost predicate IsGame(g: Geom, k: nat, koOn: bool, t: Transcript) {
    && 1 <= k <= MAX_PLAYERS
    && |t.run| == |t.history| == |t.moves| + 1
    && t.run[0] == Start(g, k, koOn) && t.history[0] == Remember(g, map[], t.run[0])
    && forall i :: 0 <= i < |t.moves| ==> Follows(g, t, i)
  }

  // ----- what holds of every position of a game -----

  lemma EmptyIsSound(g: Geom, k: nat, koOn: bool)
    requires 1 <= k <= MAX_PLAYERS
    ensures Sound(g, Start(g, k, koOn)) && NoDead(g.W(), Start(g, k, koOn).cells) && Walled(g.n, Start(g, k, koOn).cells)
  {
    var b := EmptyBoard(g.n);
    forall i | 0 <= i < |b| && b[i] != WALL ensures g.W() <= i < |b| - g.W() { PointInside(g.n, i); }
    EmptyHash(g, b);
  }

  lemma PointInside(n: nat, i: int)
    requires 0 <= i < (n + 2) * (n + 2) && IsPoint(n, i)
    ensures n + 2 <= i < (n + 2) * (n + 2) - (n + 2)
  {
    var w, y := n + 2, i / (n + 2);
    Divided(w, i, y);
    MulGrows(1, y, w);
    MulGrows(y, n, w);
    OneLess(n + 2, w);
    OneLess(n + 1, w);
  }

  lemma {:induction false} EmptyHash(g: Geom, b: Board)
    requires forall i :: 0 <= i < |b| ==> b[i] <= OPEN
    ensures HashOf(g, b) == 0
  {
    hide Xor;
    if b != [] {
      EmptyHash(g, b[..|b| - 1]);
      XorCancel(0, 0);
    }
  }

  lemma PlayKeepsSound(g: Geom, s: Position, m: int)
    requires Sound(g, s) && m < |s.cells| && (Places(s, m) ==> s.cells[m] == OPEN)
    ensures Sound(g, Play(g, s, m).after)
  {
    hide HashOf, OnBoard, Captures;
    NextSeat(s.k, s.toMove);
    if Places(s, m) {
      var c := s.toMove;
      PlacedOnBoard(g, s.k, s.cells, m, c);
      CapturesOnBoard(g, s.k, m, c, 4, Placed(s, m));
      var x := Captures(g.W(), m, c, 4, Placed(s, m));
      if !Alive(g.W(), x.cells, m) { ClearedOnBoard(g, s.k, x.cells, m); }
      assert Play(g, s, m).after.cells == Settle(g, s.(timeouts := 0), m, x).after.cells;
    }
  }

  lemma NextSeat(k: nat, c: nat)
    requires 1 <= c <= k
    ensures 1 <= c % k + 1 <= k
  {
  }

  lemma {:induction false} CapturesOnBoard(g: Geom, k: nat, m: int, c: int, d: nat, x: Caught)
    requires OnBoard(g, k, x.cells) && 0 <= m < |x.cells| && x.cells[m] == c > 0
    ensures var y := Captures(g.W(), m, c, d, x);
            OnBoard(g, k, y.cells) && y.cells[m] == c && |y.losses| == |x.losses|
  {
    hide Alive, Group;
    if d > 0 {
      CapturesOnBoard(g, k, m, c, d - 1, x);
      var y := Captures(g.W(), m, c, d - 1, x);
      if DeadAt(g.W(), y.cells, m, c, d - 1) {
        var n := Neighbor(g.W(), m, d - 1);
        ClearedOnBoard(g, k, y.cells, n);
        GroupApart(g.W(), y.cells, n, m);
      }
    }
  }

  /** No cell turns into a wall or stops being one. */
  predicate SameWalls(b: Board, b': Board) {
    |b'| == |b| && forall i :: 0 <= i < |b| ==> (b'[i] == WALL <==> b[i] == WALL)
  }

  lemma ClearKeepsWalls(w: nat, b: Board, n: int)
    requires 0 <= n < |b| && b[n] > 0
    ensures SameWalls(b, Cleared(b, Group(w, b, n)))
  {
  }

  lemma {:induction false} CapturesKeepWalls(w: nat, m: int, c: int, d: nat, x: Caught)
    ensures SameWalls(x.cells, Captures(w, m, c, d, x).cells)
  {
    hide Alive, Group;
    if d > 0 {
      CapturesKeepWalls(w, m, c, d - 1, x);
      var y := Captures(w, m, c, d - 1, x);
      if DeadAt(w, y.cells, m, c, d - 1) { ClearKeepsWalls(w, y.cells, Neighbor(w, m, d - 1)); }
    }
  }

  lemma PlayKeepsWalls(g: Geom, s: Position, m: int)
    requires Sound(g, s) && m < |s.cells| && (Places(s, m) ==> s.cells[m] == OPEN)
    ensures SameWalls(s.cells, Play(g, s, m).after.cells)
  {
    hide HashOf, Captures, Group;
    if Places(s, m) {
      var x := Captures(g.W(), m, s.toMove, 4, Placed(s, m));
      CapturesKeepWalls(g.W(), m, s.toMove, 4, Placed(s, m));
      StoneStays(g.W(), m, s.toMove, 4, Placed(s, m));
      if !Alive(g.W(), x.cells, m) { ClearKeepsWalls(g.W(), x.cells, m); }
      assert Play(g, s, m).after.cells == Settle(g, s.(timeouts := 0), m, x).after.cells;
    }
  }

  lemma PermittedIsOpen(g: Geom, h: History, s: Position, m: int)
    requires s.k > 0 && Permitted(g, h, s, m)
    ensures Places(s, m) ==> m < |s.cells| && s.cells[m] == OPEN
  {
    hide Play;
  }

  ghost predicate Healthy(g: Geom, k: nat, koOn: bool, i: nat, s: Position) {
    && Sound(g, s) && NoDead(g.W(), s.cells) && Walled(g.n, s.cells)
    && s.k == k && s.koOn == koOn && s.moveNo == i && s.toMove == i % k + 1
  }

  /** Every position of every game is sound, has no dead group, and its move number tells whose turn it is. */
  lemma {:induction false} GameIsHealthy(g: Geom, k: nat, koOn: bool, t: Transcript, i: nat)
    requires IsGame(g, k, koOn, t) && i < |t.run|
    ensures k > 0 && Healthy(g, k, koOn, i, t.run[i])
  {
    hide Sound, NoDead, Walled, Play, Permitted, Start;
    if i == 0 {
      EmptyIsSound(g, k, koOn);
      StartFields(g, k, koOn);
    } else {
      GameIsHealthy(g, k, koOn, t, i - 1);
      assert Follows(g, t, i - 1);
      StepIsHealthy(g, k, koOn, i - 1, t.run[i - 1], t.history[i - 1], t.moves[i - 1]);
    }
  }

  lemma StartFields(g: Geom, k: nat, koOn: bool)
    requires k > 0
    ensures var s := Start(g, k, koOn); s.k == k && s.koOn == koOn && s.moveNo == 0 && s.toMove == 0 % k + 1 && s.ko == -1
  {
  }

  lemma StepIsHealthy(g: Geom, k: nat, koOn: bool, i: nat, s: Position, h: History, m: int)
    requires k > 0 && Healthy(g, k, koOn, i, s) && Permitted(g, h, s, m) && m < |s.cells|
    ensures Healthy(g, k, koOn, i + 1, Play(g, s, m).after)
  {
    hide NoDead, IsPoint, Play, Permitted, HashOf, OnBoard;
    PermittedIsOpen(g, h, s, m);
    PlayKeepsSound(g, s, m);
    PlayLeavesNoDead(g, s, m);
    PlayKeepsWalls(g, s, m);
    TurnGoesRound(k, i);
  }

  lemma TurnGoesRound(k: nat, i: nat)
    requires k > 0
    ensures (i % k + 1) % k + 1 == (i + 1) % k + 1
  {
    var q, r := i / k, i % k;
    assert i == q * k + r;
    if r + 1 < k {
      Remainder(k, r + 1, 0, r + 1);
      Remainder(k, i + 1, q, r + 1);
    } else {
      assert (q + 1) * k == q * k + k;
      Remainder(k, k, 1, 0);
      Remainder(k, i + 1, q + 1, 0);
    }
  }

  // ----- superko -----

  ghost predicate OccurredBy(t: Transcript, i: nat, x: Situation)
    requires i < |t.run|
  {
    exists j :: 0 <= j <= i && SituationOf(t.run[j]) == x
  }

  /** The key of a situation, from the board itself. */
  function KeyOf(g: Geom, x: Situation): Word {
    Xor(HashOf(g, x.cells), g.zt(x.toMove))
  }

  /** The history holds exactly the situations that occurred, each under its own key. */
  ghost predicate Exact(g: Geom, t: Transcript, i: nat)
    requires i < |t.run| == |t.history|
  {
    && (forall key, x :: Listed(t.history[i], key, x) ==> key == KeyOf(g, x) && OccurredBy(t, i, x))
    && (forall j :: 0 <= j <= i ==> Listed(t.history[i], KeyOf(g, SituationOf(t.run[j])), SituationOf(t.run[j])))
  }

  lemma RememberAdds(g: Geom, h: History, s: Position, key: Word, x: Situation)
    ensures Listed(Remember(g, h, s), key, x) <==> Listed(h, key, x) || (key == Key(g, s) && x == SituationOf(s))
  {
    hide Key;
    BucketAdds(h, Key(g, s), SituationOf(s), key);
  }

  lemma BucketAdds<K>(h: map<K, seq<Situation>>, at: K, x: Situation, key: K)
    ensures Bucket(h[at := Bucket(h, at) + [x]], key) == if key == at then Bucket(h, at) + [x] else Bucket(h, key)
  {
  }

  lemma KeyIsExact(g: Geom, s: Position)
    requires Sound(g, s)
    ensures Key(g, s) == KeyOf(g, SituationOf(s))
  {
  }

  lemma {:induction false} HistoryIsExact(g: Geom, k: nat, koOn: bool, t: Transcript, i: nat)
    requires IsGame(g, k, koOn, t) && i < |t.run|
    ensures Exact(g, t, i)
  {
    hide Sound, NoDead, Walled, Play, Permitted, Start, Remember, Key, KeyOf, Listed;
    GameIsHealthy(g, k, koOn, t, i);
    KeyIsExact(g, t.run[i]);
    if i == 0 {
      ExactStart(g, t);
    } else {
      HistoryIsExact(g, k, koOn, t, i - 1);
      assert Follows(g, t, i - 1);
      ExactStep(g, t, i - 1);
    }
  }

  lemma ExactStart(g: Geom, t: Transcript)
    requires 0 < |t.run| == |t.history| && t.history[0] == Remember(g, map[], t.run[0])
    requires Key(g, t.run[0]) == KeyOf(g, SituationOf(t.run[0]))
    ensures Exact(g, t, 0)
  {
    hide Remember, Key, KeyOf;
    var none: History := map[];
    forall key, x ensures Listed(t.history[0], key, x) <==> key == KeyOf(g, x) && x == SituationOf(t.run[0]) {
      RememberAdds(g, none, t.run[0], key, x);
      assert !Listed(none, key, x);
    }
    assert OccurredBy(t, 0, SituationOf(t.run[0]));
  }

  lemma ExactStep(g: Geom, t: Transcript, i: nat)
    requires i + 1 < |t.run| == |t.history| && Exact(g, t, i)
    requires t.history[i + 1] == Remember(g, t.history[i], t.run[i + 1]) && Key(g, t.run[i + 1]) == KeyOf(g, SituationOf(t.run[i + 1]))
    ensures Exact(g, t, i + 1)
  {
    hide Remember, Key, KeyOf, Listed;
    var h, h', s := t.history[i], t.history[i + 1], t.run[i + 1];
    forall key, x | Listed(h', key, x) ensures key == KeyOf(g, x) && OccurredBy(t, i + 1, x) {
      RememberAdds(g, h, s, key, x);
      if Listed(h, key, x) {
        var j :| 0 <= j <= i && SituationOf(t.run[j]) == x;
        assert j <= i + 1;
      }
    }
    forall j | 0 <= j <= i + 1 ensures Listed(h', KeyOf(g, SituationOf(t.run[j])), SituationOf(t.run[j])) {
      RememberAdds(g, h, s, KeyOf(g, SituationOf(t.run[j])), SituationOf(t.run[j]));
    }
  }

  /** `seen` answers exactly whether a situation occurred in the game so far, whatever collides. */
  lemma SeenIffOccurred(g: Geom, k: nat, koOn: bool, t: Transcript, i: nat, s: Position)
    requires IsGame(g, k, koOn, t) && i < |t.run| && Sound(g, s)
    ensures Seen(g, t.history[i], s) <==> OccurredBy(t, i, SituationOf(s))
  {
    hide Sound, IsGame, Key, KeyOf, Listed;
    HistoryIsExact(g, k, koOn, t, i);
    KeyIsExact(g, s);
  }

  /** Superko: with ko on, no stone placed in any game brings back a board with the same seat to move. */
  lemma NoPlacementRepeats(g: Geom, k: nat, t: Transcript, i: nat, j: nat)
    requires IsGame(g, k, true, t) && j <= i < |t.moves| && t.moves[i] >= 0
    ensures t.run[j].cells != t.run[i + 1].cells || t.run[j].toMove != t.run[i + 1].toMove
  {
    hide Sound, Play, Start, Remember, NoDead, Walled, Seen;
    GameIsHealthy(g, k, true, t, i);
    GameIsHealthy(g, k, true, t, i + 1);
    SeenIffOccurred(g, k, true, t, i, t.run[i + 1]);
    assert Follows(g, t, i);
    assert !Seen(g, t.history[i], t.run[i + 1]);
    assert !OccurredBy(t, i, SituationOf(t.run[i + 1]));
    assert SituationOf(t.run[j]) != SituationOf(t.run[i + 1]);
  }

  /** With two seats the ko rule never refuses anything superko would allow: a refused move would repeat the situation
      before the capture. */
  lemma KoNeverBindsAlone(g: Geom, t: Transcript, i: nat, m: int)
    requires IsGame(g, 2, true, t) && i < |t.run|
    requires 0 <= m < |t.run[i].cells| && t.run[i].cells[m] == OPEN && t.run[i].toMove !in t.run[i].out
    requires !IsLegal(g, t.run[i], m)
    ensures i > 0 && t.run[i].k > 0 && Seen(g, t.history[i], Play(g, t.run[i], m).after)
    ensures Play(g, t.run[i], m).after.cells == t.run[i - 1].cells && Play(g, t.run[i], m).after.toMove == t.run[i - 1].toMove
  {
    hide Play, Start, Remember, NoDead, Walled, Seen, HashOf, OnBoard;
    GameIsHealthy(g, 2, true, t, i);
    StartFields(g, 2, true);
    assert i > 0;
    GameIsHealthy(g, 2, true, t, i - 1);
    assert Follows(g, t, i - 1);
    var s := t.run[i - 1];
    PermittedIsOpen(g, t.history[i - 1], s, t.moves[i - 1]);
    OnlyPlacementsSetKo(g, s, t.moves[i - 1]);
    KoIsSuperko(g, s, t.moves[i - 1]);
    PlayKeepsSound(g, t.run[i], m);
    SeenIffOccurred(g, 2, true, t, i, Play(g, t.run[i], m).after);
    assert SituationOf(t.run[i - 1]) == SituationOf(Play(g, t.run[i], m).after);
  }

  lemma OnlyPlacementsSetKo(g: Geom, s: Position, m: int)
    requires s.k > 0 && m < |s.cells| && Play(g, s, m).after.ko != -1
    ensures Places(s, m) && Play(g, s, m).after.out == s.out
  {
    hide PlaceStone;
  }

  // ----- conservation -----

  /** Stones seat `v` placed in the first `i` moves. */
  function PlacedBy(t: Transcript, v: nat, i: nat): nat
    requires i <= |t.moves| <= |t.run|
  {
    if i == 0 then 0 else PlacedBy(t, v, i - 1) + (if Places(t.run[i - 1], t.moves[i - 1]) && t.run[i - 1].toMove == v then 1 else 0)
  }

  /** At every point of every game a seat's stones on the board and its losses make up the stones it placed. */
  lemma {:induction false} StonesAreConserved(g: Geom, k: nat, koOn: bool, t: Transcript, v: nat, i: nat)
    requires IsGame(g, k, koOn, t) && i < |t.run| && 1 <= v <= k
    ensures |t.run[i].losses| == MAX_PLAYERS + 1
    ensures |StonesOf(t.run[i].cells, v)| + t.run[i].losses[v] == PlacedBy(t, v, i)
  {
    hide StonesOf, Play, NoDead, Walled, Remember, HashOf, OnBoard;
    GameIsHealthy(g, k, koOn, t, i);
    if i == 0 {
      NoStonesAtStart(g, k, koOn, v);
    } else {
      StonesAreConserved(g, k, koOn, t, v, i - 1);
      GameIsHealthy(g, k, koOn, t, i - 1);
      assert Follows(g, t, i - 1);
      PermittedIsOpen(g, t.history[i - 1], t.run[i - 1], t.moves[i - 1]);
      PlayConservesStones(g, t.run[i - 1], t.moves[i - 1], v);
    }
  }

  lemma NoStonesAtStart(g: Geom, k: nat, koOn: bool, v: nat)
    requires v > 0
    ensures StonesOf(Start(g, k, koOn).cells, v) == {}
  {
  }
}
