/** What one node computes between network rounds: the retry loop and value choice of `choose`, and the plan of `recover`. */
module PaxosNode {
  import opened Options
  import opened PaxosBallots
  import opened PaxosStorage
  import opened PaxosProtocol
  import opened PaxosInvariant

  const ATTEMPTS := 5

  /** One answer to "prepare": the promised counter, and what was accepted if it succeeded. */
  datatype Response = Response(success: bool, promisedCounter: nat, reply: Reply)

  datatype Verdict =
    | ChosenValue(ballot: Ballot, value: Value)
    | NoPrepareQuorum
    | NoAcceptQuorum(ballot: Ballot, value: Value)
    | NoCommitQuorum(ballot: Ballot, value: Value)

  function Successes(rs: seq<Response>): seq<Reply> {
    if rs == [] then []
    else Successes(rs[..|rs| - 1]) + if rs[|rs| - 1].success then [rs[|rs| - 1].reply] else []
  }

  /** One answer to "accept" or "commit". */
  datatype Vote = Vote(from: nat, success: bool)

  function Count(votes: seq<Vote>): nat {
    if votes == [] then 0 else Count(votes[..|votes| - 1]) + if votes[|votes| - 1].success then 1 else 0
  }

  // ----- what the answers of a round say -----

  /** Two replicas promised. */
  predicate TwoPromised(rs: seq<Response>) {
    exists i, j :: 0 <= i < j < |rs| && rs[i].success && rs[j].success
  }

  /** Two replicas said yes. */
  predicate TwoAgreed(votes: seq<Vote>) {
    exists i, j :: 0 <= i < j < |votes| && votes[i].success && votes[j].success
  }

  /** A promise that reports something accepted. */
  predicate Reports(r: Response) {
    r.success && r.reply.accepted.counter > 0
  }

  /** Promise `i` reports the highest accepted ballot of the round, and is the first to report it. */
  predicate IsTop(rs: seq<Response>, i: nat) {
    && i < |rs| && Reports(rs[i])
    && (forall j :: 0 <= j < i && Reports(rs[j]) ==> Less(rs[j].reply.accepted, rs[i].reply.accepted))
    && (forall j :: i < j < |rs| && Reports(rs[j]) ==> !Less(rs[i].reply.accepted, rs[j].reply.accepted))
  }

  /** The value a round calls for: the one reported with the highest accepted ballot, or the caller's own if no promise
      reports any. */
  predicate CallsFor(rs: seq<Response>, want: Value, value: Value) {
    if exists r <- rs :: Reports(r)
    then exists i: nat :: i < |rs| && IsTop(rs, i) && value == rs[i].reply.value
    else value == want
  }

  /** Where the promises stand among the answers. */
  predicate StandAt(rs: seq<Response>, at: seq<nat>) {
    && |at| == |Successes(rs)|
    && (forall k :: 0 <= k < |at| ==> at[k] < |rs| && rs[at[k]].success && rs[at[k]].reply == Successes(rs)[k])
    && (forall k, l :: 0 <= k < l < |at| ==> at[k] < at[l])
    && (forall i :: 0 <= i < |rs| && rs[i].success ==> i in at)
  }

  lemma {:induction false} SuccessesStand(rs: seq<Response>) returns (at: seq<nat>)
    ensures StandAt(rs, at)
  {
    if rs == [] {
      at := [];
    } else {
      var n := |rs| - 1;
      at := SuccessesStand(rs[..n]);
      if rs[n].success { at := at + [n]; }
    }
  }

  lemma QuorumOfPromises(rs: seq<Response>)
    ensures |Successes(rs)| >= 2 <==> TwoPromised(rs)
  {
    var at := SuccessesStand(rs);
    if |at| >= 2 { assert rs[at[0]].success && rs[at[1]].success; }
    if i, j :| 0 <= i < j < |rs| && rs[i].success && rs[j].success {
      var k :| 0 <= k < |at| && at[k] == i;
      var l :| 0 <= l < |at| && at[l] == j;
    }
  }

  lemma {:induction false} QuorumOfVotes(votes: seq<Vote>)
    ensures Count(votes) >= 1 <==> exists i :: 0 <= i < |votes| && votes[i].success
    ensures Count(votes) >= 2 <==> TwoAgreed(votes)
  {
    if votes != [] {
      var n := |votes| - 1;
      var front := votes[..n];
      QuorumOfVotes(front);
      if TwoAgreed(votes) {
        var i, j :| 0 <= i < j < |votes| && votes[i].success && votes[j].success;
        assert front[i].success;
        if j < n { assert front[j].success; }
      }
      if TwoAgreed(front) {
        var i, j :| 0 <= i < j < n && front[i].success && front[j].success;
        assert votes[i].success && votes[j].success;
      }
    }
  }

  /** Promise `t` is the first highest among the first `n` of these. */
  predicate IsTopReply(ok: seq<Reply>, n: nat, t: nat) {
    && t < n <= |ok| && ok[t].accepted.counter > 0
    && (forall j :: 0 <= j < t && ok[j].accepted.counter > 0 ==> Less(ok[j].accepted, ok[t].accepted))
    && (forall j :: t < j < n && ok[j].accepted.counter > 0 ==> !Less(ok[t].accepted, ok[j].accepted))
  }

  lemma HigherTop(ok: seq<Reply>, n: nat, t: nat)
    requires IsTopReply(ok, n, t) && n < |ok| && ok[n].accepted.counter > 0 && Less(ok[t].accepted, ok[n].accepted)
    ensures IsTopReply(ok, n + 1, n)
  {
    StrictTotalOrder();
    forall j | 0 <= j < n && ok[j].accepted.counter > 0 ensures Less(ok[j].accepted, ok[n].accepted) {
      if j < t { assert Less(ok[j].accepted, ok[t].accepted); }
    }
  }

  /** What the loop of `choose` takes: the value of the first highest report, the caller's own if there is none. */
  lemma {:induction false} AdoptTakesTop(ok: seq<Reply>, want: Value, n: nat, t: int, high: Ballot, chosen: Value) returns (top: int)
    requires n <= |ok| && -1 <= t
    requires t == -1 ==> high == ZERO && chosen == want && forall j :: 0 <= j < n ==> ok[j].accepted.counter == 0
    requires t >= 0 ==> IsTopReply(ok, n, t) && high == ok[t].accepted && chosen == ok[t].value
    ensures -1 <= top
    ensures top == -1 ==> Adopt(ok[n..], high, chosen) == want && forall j :: 0 <= j < |ok| ==> ok[j].accepted.counter == 0
    ensures top >= 0 ==> IsTopReply(ok, |ok|, top) && Adopt(ok[n..], high, chosen) == ok[top].value
    decreases |ok| - n
  {
    if n == |ok| {
      top := t;
    } else {
      assert ok[n..][1..] == ok[n + 1..];
      if ok[n].accepted.counter > 0 && (Less(high, ok[n].accepted) || high == ZERO) {
        if t >= 0 { HigherTop(ok, n, t); }
        top := AdoptTakesTop(ok, want, n + 1, n, ok[n].accepted, ok[n].value);
      } else {
        top := AdoptTakesTop(ok, want, n + 1, t, high, chosen);
      }
    }
  }

  lemma AdoptIsCalledFor(rs: seq<Response>, want: Value)
    ensures CallsFor(rs, want, Adopt(Successes(rs), ZERO, want))
  {
    hide Adopt, Less, Successes;
    var ok := Successes(rs);
    var at := SuccessesStand(rs);
    var top := AdoptTakesTop(ok, want, 0, -1, ZERO, want);
    assert ok[0..] == ok;
    if top >= 0 {
      TopStands(rs, at, top);
    } else {
      forall i | 0 <= i < |rs| ensures !Reports(rs[i]) {
        if rs[i].success { var k :| 0 <= k < |at| && at[k] == i; }
      }
    }
  }

  lemma TopStands(rs: seq<Response>, at: seq<nat>, top: nat)
    requires StandAt(rs, at) && IsTopReply(Successes(rs), |Successes(rs)|, top)
    ensures IsTop(rs, at[top])
  {
    hide Less, Successes;
    var ok := Successes(rs);
    forall j | 0 <= j < |rs| && Reports(rs[j])
      ensures j < at[top] ==> Less(rs[j].reply.accepted, rs[at[top]].reply.accepted)
      ensures at[top] < j ==> !Less(rs[at[top]].reply.accepted, rs[j].reply.accepted)
    {
      var k :| 0 <= k < |at| && at[k] == j;
      assert ok[k] == rs[j].reply && ok[top] == rs[at[top]].reply;
    }
  }

  // ----- the retry counter -----

  /** Attempt `a` is the first whose prepare round reaches a quorum. */
  predicate FirstQuorum(rounds: seq<seq<Response>>, a: nat) {
    a < |rounds| && TwoPromised(rounds[a]) && forall i :: 0 <= i < a ==> !TwoPromised(rounds[i])
  }

  /** The highest promised counter in a round of answers. */
  function Highest(rs: seq<Response>): nat {
    if rs == [] then 0 else Max(Highest(rs[..|rs| - 1]), rs[|rs| - 1].promisedCounter)
  }

  /** The node's counter after `a` refused attempts. */
  function CounterAfter(start: nat, rounds: seq<seq<Response>>, a: nat): nat
    requires a <= |rounds|
  {
    if a == 0 then start else Max(CounterAfter(start, rounds, a - 1) + 1, Highest(rounds[a - 1]))
  }

  lemma {:induction false} HighestIsHighest(rs: seq<Response>)
    ensures forall r <- rs :: r.promisedCounter <= Highest(rs)
    ensures Highest(rs) == 0 || exists r <- rs :: r.promisedCounter == Highest(rs)
  {
    if rs != [] {
      var n := |rs| - 1;
      HighestIsHighest(rs[..n]);
      assert rs[n] in rs;
      if Highest(rs) == Highest(rs[..n]) && Highest(rs) > 0 {
        var r :| r in rs[..n] && r.promisedCounter == Highest(rs[..n]);
        assert r in rs;
      }
    }
  }

  /** No further than it has to: the counter comes from counting the attempts, or from one promise that refused one of them
      and counting the attempts since. */
  lemma {:induction false} CounterComesFrom(start: nat, rounds: seq<seq<Response>>, a: nat)
    requires a <= |rounds|
    ensures CounterAfter(start, rounds, a) == start + a
            || exists i, r :: 0 <= i < a && r in rounds[i] && CounterAfter(start, rounds, a) == r.promisedCounter + (a - 1 - i)
  {
    if a > 0 {
      CounterComesFrom(start, rounds, a - 1);
      HighestIsHighest(rounds[a - 1]);
      var c := CounterAfter(start, rounds, a - 1);
      if CounterAfter(start, rounds, a) != c + 1 {
        var r :| r in rounds[a - 1] && r.promisedCounter == Highest(rounds[a - 1]);
      } else if c != start + (a - 1) {
        var i, r :| 0 <= i < a - 1 && r in rounds[i] && c == r.promisedCounter + (a - 2 - i);
        assert CounterAfter(start, rounds, a) == r.promisedCounter + (a - 1 - i);
      }
    }
  }

  /** A retry goes beyond the ballots tried before and every promise that refused them. */
  lemma {:induction false} RetriesGoBeyond(start: nat, rounds: seq<seq<Response>>, a: nat, i: nat, r: Response)
    requires i < a <= |rounds| && r in rounds[i]
    ensures start + a <= CounterAfter(start, rounds, a) && r.promisedCounter + (a - 1 - i) <= CounterAfter(start, rounds, a)
  {
    if i < a - 1 {
      RetriesGoBeyond(start, rounds, a - 1, i, r);
    } else {
      HighestIsHighest(rounds[i]);
      AttemptsCount(start, rounds, a);
    }
  }

  lemma {:induction false} AttemptsCount(start: nat, rounds: seq<seq<Response>>, a: nat)
    requires a <= |rounds|
    ensures start + a <= CounterAfter(start, rounds, a)
  {
    if a > 0 { AttemptsCount(start, rounds, a - 1); }
  }

  /** The promises among the answers of a round, and the highest counter any answer shows. */
  method ReadPromises(rs: seq<Response>) returns (ok: seq<Reply>, highest: nat)
    ensures ok == Successes(rs) && highest == Highest(rs)
  {
    ok, highest := [], 0;
    for i := 0 to |rs|
      invariant ok == Successes(rs[..i]) && highest == Highest(rs[..i])
    {
      assert rs[..i + 1][..i] == rs[..i];
      if rs[i].promisedCounter > highest { highest := rs[i].promisedCounter; }
      if rs[i].success { ok := ok + [rs[i].reply]; }
    }
    assert rs[..|rs|] == rs;
  }

  method CountSuccesses(votes: seq<Vote>) returns (n: nat)
    ensures n == Count(votes)
  {
    n := 0;
    for i := 0 to |votes|
      invariant n == Count(votes[..i])
    {
      assert votes[..i + 1][..i] == votes[..i];
      if votes[i].success { n := n + 1; }
    }
    assert votes[..|votes|] == votes;
  }

  /** The loop of `choose` over the promises, in arrival order. */
  method AdoptValue(ok: seq<Reply>, want: Value) returns (chosen: Value)
    ensures chosen == Adopt(ok, ZERO, want)
    ensures (chosen == want && forall p <- ok :: p.accepted.counter == 0)
            || exists p <- ok :: p.accepted.counter > 0 && chosen == p.value && forall q <- ok :: !Less(p.accepted, q.accepted)
  {
    chosen := want;
    var high := ZERO;
    AdoptPicksHighest(ok, ZERO, want);
    for i := 0 to |ok|
      invariant Adopt(ok[i..], high, chosen) == Adopt(ok, ZERO, want)
    {
      assert ok[i..][1..] == ok[i + 1..];
      var p := ok[i];
      if p.accepted.counter > 0 && (Less(high, p.accepted) || high == ZERO) {
        high, chosen := p.accepted, p.value;
      }
    }
  }

  class Node {
    const id: string
    var counter: nat

    constructor (id: string, clock: nat)
      ensures this.id == id && counter == clock
    {
      this.id := id;
      counter := clock;
    }

    method NextBallot() returns (b: Ballot)
      modifies this
      ensures b == Ballot(old(counter) + 1, id) && counter == old(counter) + 1
    {
      counter := counter + 1;
      b := Ballot(counter, id);
    }

    /** Keeps the counter at or above every counter seen in a refused round. */
    method CatchUp(highest: nat)
      modifies this
      ensures counter == Max(old(counter), highest)
    {
      var swapped := false;
      while counter <= highest && !swapped
        invariant counter == if swapped then highest else old(counter)
        invariant swapped ==> old(counter) <= highest
        decreases !swapped
      {
        counter, swapped := highest, true;
      }
    }

    /** The retry loop of `choose`: the promises of the first round with a quorum, and the ballot they are for. */
    method PrepareRounds(rounds: seq<seq<Response>>) returns (b: Ballot, ok: seq<Reply>, attempt: nat)
      requires |rounds| == ATTEMPTS
      modifies this
      ensures attempt <= ATTEMPTS && forall i :: 0 <= i < attempt ==> !TwoPromised(rounds[i])
      ensures if attempt == ATTEMPTS then |ok| < QUORUM && counter == CounterAfter(old(counter), rounds, ATTEMPTS)
              else |ok| >= QUORUM && FirstQuorum(rounds, attempt) && ok == Successes(rounds[attempt])
                   && counter == CounterAfter(old(counter), rounds, attempt) + 1 && b == Ballot(counter, id)
    {
      hide Successes, TwoPromised;
      b, ok, attempt := ZERO, [], 0;
      while attempt < ATTEMPTS
        invariant attempt <= ATTEMPTS
        invariant counter == CounterAfter(old(counter), rounds, attempt)
        invariant |ok| < QUORUM
        invariant forall i :: 0 <= i < attempt ==> !TwoPromised(rounds[i])
      {
        b := NextBallot();
        var highest: nat;
        ok, highest := ReadPromises(rounds[attempt]);
        QuorumOfPromises(rounds[attempt]);
        if |ok| >= QUORUM { return; }
        CatchUp(highest);
        attempt := attempt + 1;
      }
    }

    /** One call of `choose`, given what each of its network rounds brings back. A value is returned only if two replicas
        promised in some round (the first such), two accepted and two committed, and it is the one that round's promises
        call for. Ballots only go up. */
    method Choose(want: Value, rounds: seq<seq<Response>>, accepts: seq<Vote>, commits: seq<Vote>) returns (v: Verdict)
      requires |rounds| == ATTEMPTS
      modifies this
      ensures v.NoPrepareQuorum? ==> counter == CounterAfter(old(counter), rounds, ATTEMPTS)
      ensures v.NoPrepareQuorum? <==> forall a :: 0 <= a < ATTEMPTS ==> !TwoPromised(rounds[a])
      ensures !v.NoPrepareQuorum? ==> exists a: nat :: FirstQuorum(rounds, a) && CallsFor(rounds[a], want, v.value)
                                                       && counter == CounterAfter(old(counter), rounds, a) + 1
      ensures !v.NoPrepareQuorum? ==> v.ballot == Ballot(counter, id)
      ensures v.NoAcceptQuorum? ==> !TwoAgreed(accepts)
      ensures v.NoCommitQuorum? ==> TwoAgreed(accepts) && !TwoAgreed(commits)
      ensures v.ChosenValue? ==> TwoAgreed(accepts) && TwoAgreed(commits)
      ensures v.ChosenValue? ==> exists a: nat :: FirstQuorum(rounds, a) && forall slot, cause ::
                Succeeds(v, Attempt(slot, v.ballot, want, cause), rounds[a], accepts, commits)
    {
      hide Successes, Count, Adopt, TwoPromised, TwoAgreed, CallsFor;
      var b, ok, attempt := PrepareRounds(rounds);
      if |ok| < QUORUM { return NoPrepareQuorum; }
      var chosen := AdoptValue(ok, want);
      AdoptIsCalledFor(rounds[attempt], want);
      QuorumOfVotes(accepts);
      QuorumOfVotes(commits);
      var count := CountSuccesses(accepts);
      if count < QUORUM { return NoAcceptQuorum(b, chosen); }
      var committed := CountSuccesses(commits);
      if committed < QUORUM { return NoCommitQuorum(b, chosen); }
      return ChosenValue(b, chosen);
    }
  }

  // ----- a successful call, step by step in the protocol -----

  /** Every answer is from another replica. */
  predicate OneVoteEach(votes: seq<Vote>) {
    && (forall v <- votes :: v.from < REPLICAS)
    && forall i, j :: 0 <= i < j < |votes| ==> votes[i].from != votes[j].from
  }

  /** The promises among the answers to a "prepare" are promises made for this attempt, by different replicas. */
  predicate PromisesTaken(s: System, a: Attempt, rs: seq<Response>) {
    && (forall r <- rs :: r.success ==> r.reply in s.promises && r.reply.slot == a.slot && r.reply.ballot == a.ballot)
    && forall i, j :: 0 <= i < j < |rs| && rs[i].success && rs[j].success ==> rs[i].reply.from != rs[j].reply.from
  }

  /** Answers to "accept" that say what the replicas acknowledged. */
  predicate AcksTaken(s: System, a: Attempt, votes: seq<Vote>) {
    OneVoteEach(votes) && forall v <- votes :: v.success ==> Ack(v.from, a.slot, a.ballot) in s.acks
  }

  predicate CommitAcksTaken(s: System, slot: nat, value: Value, votes: seq<Vote>) {
    OneVoteEach(votes) && forall v <- votes :: v.success ==> CommitAck(v.from, slot, value) in s.commitAcks
  }

  /** Proposal `i` is the one this attempt made, with this value. */
  predicate ProposedAt(s: System, i: nat, a: Attempt, value: Value) {
    i < |s.proposals| && s.proposals[i].slot == a.slot && s.proposals[i].ballot == a.ballot && s.proposals[i].value == value
  }

  /** What `Choose` returns when it succeeds, given the answers to its three rounds. */
  predicate Succeeds(v: Verdict, a: Attempt, rs: seq<Response>, accepts: seq<Vote>, commits: seq<Vote>) {
    && v.ChosenValue? && v.ballot == a.ballot && v.value == Adopt(Successes(rs), ZERO, a.want)
    && TwoPromised(rs) && TwoAgreed(accepts) && TwoAgreed(commits)
  }

  function WithProposal(s: System, p: Proposal): System {
    s.(proposals := s.proposals + [p])
  }

  function WithCommit(s: System, m: CommitMessage): System {
    s.(commits := s.commits + {m})
  }

  function WithOutcome(s: System, o: Outcome): System {
    s.(outcomes := s.outcomes + {o})
  }

  lemma SuccessesAre(rs: seq<Response>)
    ensures forall p :: p in Successes(rs) <==> exists r <- rs :: r.success && r.reply == p
  {
    hide Successes;
    var ok := Successes(rs);
    var at := SuccessesStand(rs);
    forall r | r in rs && r.success ensures r.reply in ok {
      var i :| 0 <= i < |rs| && rs[i] == r;
      var k :| 0 <= k < |at| && at[k] == i;
    }
    forall p | p in ok ensures exists r <- rs :: r.success && r.reply == p {
      var k :| 0 <= k < |ok| && ok[k] == p;
      assert rs[at[k]] in rs;
    }
  }

  /** The promises among these answers, in order, are what a proposal needs. */
  lemma PromisesSuffice(s: System, a: Attempt, rs: seq<Response>)
    requires a in s.attempts && !HasProposal(s, a.slot, a.ballot) && PromisesTaken(s, a, rs) && TwoPromised(rs)
    ensures CanPropose(s, a, Successes(rs))
  {
    hide HasProposal, Successes, TwoPromised;
    QuorumOfPromises(rs);
    SuccessesAre(rs);
    var ok := Successes(rs);
    var at := SuccessesStand(rs);
    forall i, j | 0 <= i < j < |ok| ensures ok[i].from != ok[j].from {
      assert rs[at[i]].reply.from != rs[at[j]].reply.from;
    }
  }

  /** A successful `choose` is a proposal, a commit message and a return of the protocol, all with the value returned: in
      `s` it has its promises, in `t` its acknowledgements, in `u` those of its commit. */
  lemma ChooseTakesSteps(s: System, t: System, u: System, a: Attempt, v: Verdict, rs: seq<Response>, accepts: seq<Vote>, commits: seq<Vote>)
    returns (ok: seq<Reply>)
    requires Succeeds(v, a, rs, accepts, commits)
    requires a in s.attempts && !HasProposal(s, a.slot, a.ballot) && PromisesTaken(s, a, rs)
    requires ProposedAt(t, |s.proposals|, a, v.value) && AcksTaken(t, a, accepts)
    requires CommitMessage(a.slot, v.value) in u.commits && CommitAcksTaken(u, a.slot, v.value, commits)
    ensures forall p :: p in ok <==> exists r <- rs :: r.success && r.reply == p
    ensures Next(s, Propose(a, ok), WithProposal(s, Proposal(a.slot, a.ballot, v.value, ok)))
    ensures Next(t, SendCommit(|s.proposals|), WithCommit(t, CommitMessage(a.slot, v.value)))
    ensures Next(u, Return(a.slot, v.value), WithOutcome(u, Outcome(a.slot, v.value)))
  {
    hide Adopt, HasProposal, Successes, TwoPromised, TwoAgreed, ChosenAt, CanReturn;
    ok := Successes(rs);
    SuccessesAre(rs);
    PromisesSuffice(s, a, rs);
    VotesChoose(t, |s.proposals|, a, v.value, accepts);
    VotesReturn(u, a.slot, v.value, commits);
  }

  lemma VotesChoose(t: System, i: nat, a: Attempt, value: Value, votes: seq<Vote>)
    requires ProposedAt(t, i, a, value) && AcksTaken(t, a, votes) && TwoAgreed(votes)
    ensures ChosenAt(t, i)
  {
    var k, l :| 0 <= k < l < |votes| && votes[k].success && votes[l].success;
    assert votes[k] in votes && votes[l] in votes;
    assert Ack(votes[k].from, a.slot, a.ballot) in t.acks && Ack(votes[l].from, a.slot, a.ballot) in t.acks;
  }

  lemma VotesReturn(u: System, slot: nat, value: Value, votes: seq<Vote>)
    requires CommitMessage(slot, value) in u.commits && CommitAcksTaken(u, slot, value, votes) && TwoAgreed(votes)
    ensures CanReturn(u, slot, value)
  {
    var k, l :| 0 <= k < l < |votes| && votes[k].success && votes[l].success;
    assert votes[k] in votes && votes[l] in votes;
  }

  /** And the ballot of each of its attempts is one `Prepare` step of its node. */
  lemma AttemptIsPrepare(s: System, node: string, slot: nat, want: Value, cause: Cause)
    requires CanPrepare(s, slot, want, cause)
    ensures var b := Ballot(CounterOf(s, node) + 1, node);
            exists t :: Next(s, Prepare(node, slot, want, cause), t) && Attempt(slot, b, want, cause) in t.attempts && CounterOf(t, node) == b.counter
  {
    var t := AfterPrepare(s, node, slot, want, cause);
    assert Next(s, Prepare(node, slot, want, cause), t);
  }

  /** Catching up with what its refusals promised is a step as well. */
  lemma CatchUpIsStep(s: System, node: string, highest: nat)
    ensures exists t :: Next(s, MoveCounter(node, Max(CounterOf(s, node), highest)), t) && CounterOf(t, node) == Max(CounterOf(s, node), highest)
  {
    var c := Max(CounterOf(s, node), highest);
    var t := s.(counters := s.counters[node := c]);
    assert Next(s, MoveCounter(node, c), t);
  }

  function Max(a: nat, b: nat): nat {
    if a < b then b else a
  }

  /** The plan of `recover` over the slot states of a quorum of answers: the end of the log, and for every slot up to
      it the state to re-decide it from, if any replica accepted anything there. */
  method PlanRecovery(all: seq<SlotState>) returns (end: nat, selected: map<nat, SlotState>)
    ensures IsEndOfLog(all, end)
    ensures forall id <- selected :: 1 <= id <= end && IsSelected(all, id, selected[id])
    ensures forall x <- all :: x.accepted.counter > 0 && x.slot >= 1 ==> x.slot in selected
  {
    end := 0;
    for i := 0 to |all|
      invariant forall j :: 0 <= j < i && Counts(all[j]) ==> all[j].slot <= end
      invariant end == 0 || exists x <- all :: Counts(x) && x.slot == end
    {
      if Counts(all[i]) && all[i].slot > end { end := all[i].slot; }
    }
    selected := map[];
    for id := 1 to end + 1
      invariant forall k <- selected :: 1 <= k < id && IsSelected(all, k, selected[k])
      invariant forall x <- all :: x.accepted.counter > 0 && 1 <= x.slot < id ==> x.slot in selected
    {
      var best := BestFor(all, id);
      if best.Some? { selected := selected[id := best.value]; }
    }
  }

  method BestFor(all: seq<SlotState>, id: nat) returns (best: Option<SlotState>)
    ensures best.Some? ==> IsSelected(all, id, best.value)
    ensures best.None? ==> forall x <- all :: x.slot == id ==> x.accepted.counter == 0
  {
    hide Less;
    best := None;
    ghost var at: nat := 0;
    for i: nat := 0 to |all|
      invariant best.Some? ==> at < i && all[at] == best.value && Wins(all[..i], id, at)
      invariant best.None? ==> forall j :: 0 <= j < i && all[j].slot == id ==> all[j].accepted.counter == 0
    {
      var x := all[i];
      NextState(all, id, i, at, best.Some?);
      if x.slot == id && x.accepted.counter > 0 && (best.None? || Less(best.value.accepted, x.accepted)) {
        best := Some(x);
        at := i;
      }
    }
    assert all[..|all|] == all;
  }

  lemma NextState(all: seq<SlotState>, id: nat, i: nat, at: nat, some: bool)
    requires i < |all|
    requires some ==> at < i && Wins(all[..i], id, at)
    requires !some ==> forall j :: 0 <= j < i && all[j].slot == id ==> all[j].accepted.counter == 0
    ensures var x := all[i];
            if x.slot == id && x.accepted.counter > 0 && (!some || Less(all[at].accepted, x.accepted)) then Wins(all[..i + 1], id, i)
            else some ==> Wins(all[..i + 1], id, at)
  {
    var x := all[i];
    if x.slot == id && x.accepted.counter > 0 && some && Less(all[at].accepted, x.accepted) {
      forall j | 0 <= j < i && all[j].slot == id && all[j].accepted.counter > 0 ensures Less(all[j].accepted, x.accepted) {
        assert all[..i][j] == all[j];
        Compare(all[at].accepted, x.accepted);
        Compare(all[j].accepted, x.accepted);
        Compare(all[j].accepted, all[at].accepted);
        if !Less(all[j].accepted, x.accepted) {
          AtLeastTransitive(all[at].accepted, all[j].accepted, x.accepted);
        }
      }
    }
  }
}
