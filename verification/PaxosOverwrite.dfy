/** A replica's committed value may still change: when, and a run in which it does. */
module PaxosOverwrite {
  import opened Options
  import opened PaxosBallots
  import opened PaxosStorage
  import opened PaxosProtocol
  import opened PaxosInvariant
  import opened PaxosSteps

  /** `Accept` leaves a committed slot's value alone exactly if it refuses the request or the request carries that value. */
  lemma AcceptKeepsCommittedIff(rep: Replica, slot: nat, b: Ballot, v: Value)
    requires Get(rep.mem, slot).committed
    ensures var x := Get(rep.mem, slot);
            Get(Accept(rep, slot, b, v, NoFault).after.mem, slot).value == x.value <==>
              Less(b, x.promised) || (x.hasAccepted && x.accepted == b) || v == x.value
    ensures Get(Accept(rep, slot, b, v, NoFault).after.mem, slot).committed
  {
  }

  /** In a reachable system only a request from below every chosen ballot can carry a value that differs from the chosen one. */
  lemma OnlyStaleRequestsDiffer(run: seq<System>, steps: seq<Step>, k: nat, i: nat, c: nat)
    requires IsRun(run, steps) && k < |run|
    requires i < |run[k].proposals| && ChosenAt(run[k], c)
    requires run[k].proposals[i].slot == run[k].proposals[c].slot && run[k].proposals[i].value != run[k].proposals[c].value
    ensures Less(run[k].proposals[i].ballot, run[k].proposals[c].ballot)
  {
    hide ReplicasSound, PromisesSworn, AcksProposed, CommitsChosen, AttemptsNumbered, Founded, Chosen, IsRun;
    RunKeepsInv(run, steps, k);
    Compare(run[k].proposals[i].ballot, run[k].proposals[c].ballot);
  }

  const V1 := Value("k", "1", "first")
  const V2 := Value("k", "2", "second")
  const A1 := Attempt(1, Ballot(1, "a"), V1, OwnValue(1))
  const A2 := Attempt(1, Ballot(1, "b"), V2, OwnValue(2))

  /** Replicas 0 and 1 answer query `q` while their logs are empty. */
  function Answers(q: nat): seq<Status> {
    [Status(q, 0, []), Status(q, 1, [])]
  }

  /** The steps of the run: two clients put a value each, and both find the log empty. The first proposer prepares at replicas 0 and 1, the second at 1 and 2 and wins there; replica 0
      commits the second value and only then receives the first proposer's request. */
  const OVERWRITE: seq<Step> := [
    Ask(1, Some(V1)), AnswerStatus(0, 1, []), AnswerStatus(1, 1, []), PlanSlots(1, Answers(1), 0),
    Ask(2, Some(V2)), AnswerStatus(0, 2, []), AnswerStatus(1, 2, []), PlanSlots(2, Answers(2), 0),
    Prepare("a", 1, V1, OwnValue(1)), Prepare("b", 1, V2, OwnValue(2)),
    DeliverPrepare(0, A1, NoFault), DeliverPrepare(1, A1, NoFault),
    Propose(A1, [Reply(0, 1, A1.ballot, ZERO, NO_VALUE), Reply(1, 1, A1.ballot, ZERO, NO_VALUE)]),
    DeliverPrepare(1, A2, NoFault), DeliverPrepare(2, A2, NoFault),
    Propose(A2, [Reply(1, 1, A2.ballot, ZERO, NO_VALUE), Reply(2, 1, A2.ballot, ZERO, NO_VALUE)]),
    DeliverAccept(1, 1, NoFault), DeliverAccept(2, 1, NoFault),
    SendCommit(1), DeliverCommit(0, CommitMessage(1, V2), NoFault),
    DeliverAccept(0, 0, NoFault)]

  function Promised(b: Ballot): Slot {
    EMPTY_SLOT.(promised := b)
  }

  /** Replica `r` shows slot 1 as `x`. */
  predicate Shows(s: System, r: nat, x: Slot) {
    r < |s.replicas| && Get(s.replicas[r].mem, 1) == x
  }

  /** A client's query on three fresh replicas: four steps, after which its `Put` goes for slot 1. */
  lemma Queried(s: System, q: nat, put: Option<Value>) returns (more: seq<System>)
    requires s.replicas == [FRESH, FRESH, FRESH] && q !in s.queries && q !in s.plans
    ensures |more| == 4
    ensures more[3] == s.(queries := s.queries[q := Query(put, ChosenSlots(s))], statuses := s.statuses + {Answers(q)[0], Answers(q)[1]},
                          plans := s.plans[q := Plan([], 0)])
    ensures Next(s, Ask(q, put), more[0]) && Next(more[0], AnswerStatus(0, q, []), more[1])
    ensures Next(more[1], AnswerStatus(1, q, []), more[2]) && Next(more[2], PlanSlots(q, Answers(q), 0), more[3])
  {
    hide ChosenSlots;
    var s1 := s.(queries := s.queries[q := Query(put, ChosenSlots(s))]);
    var s2 := s1.(statuses := s1.statuses + {Answers(q)[0]});
    var s3 := s2.(statuses := s2.statuses + {Answers(q)[1]});
    assert s3.statuses == s.statuses + {Answers(q)[0], Answers(q)[1]};
    assert Reported(Answers(q)) == [] by { assert Reported(Answers(q)[..1]) == []; }
    more := [s1, s2, s3, s3.(plans := s3.plans[q := Plan([], 0)])];
  }

  lemma OneQueried() returns (s: System, run: seq<System>)
    ensures IsRun(run, OVERWRITE[..4]) && run[4] == s
    ensures s == INITIAL.(queries := s.queries, statuses := s.statuses, plans := s.plans)
    ensures s.queries.Keys == {1} && s.queries[1].put == Some(V1) && s.plans.Keys == {1} && s.plans[1] == Plan([], 0)
  {
    hide ChosenSlots, Next;
    var first := Queried(INITIAL, 1, Some(V1));
    assert IsRun([INITIAL], []);
    Extended([INITIAL], [], first, OVERWRITE[..4]);
    assert [] + OVERWRITE[..4] == OVERWRITE[..4];
    s, run := first[3], [INITIAL] + first;
  }

  lemma BothQueried() returns (s: System, run: seq<System>)
    ensures IsRun(run, OVERWRITE[..8]) && run[8] == s
    ensures s == INITIAL.(queries := s.queries, statuses := s.statuses, plans := s.plans)
    ensures CanPrepare(s, 1, V1, OwnValue(1)) && CanPrepare(s, 1, V2, OwnValue(2))
  {
    hide ChosenSlots, Next;
    var s4, run4 := OneQueried();
    var more := Queried(s4, 2, Some(V2));
    s, run := more[3], run4 + more;
    assert OVERWRITE[..8] == OVERWRITE[..4] + OVERWRITE[4..8];
    Extended(run4, OVERWRITE[..4], more, OVERWRITE[4..8]);
  }

  lemma BothWanted() returns (s: System, run: seq<System>)
    ensures IsRun(run, OVERWRITE[..10]) && run[10] == s
    ensures s.replicas == [FRESH, FRESH, FRESH] && s.attempts == {A1, A2} && s.proposals == [] && s.acks == {} && s.commits == {}
    ensures s.prepared == {} && s.promises == {}
  {
    var s8, run8 := BothQueried();
    hide IsSnapshot, SelectsValue, ChosenSlots;
    var s9 := AfterPrepare(s8, "a", 1, V1, OwnValue(1));
    s := AfterPrepare(s9, "b", 1, V2, OwnValue(2));
    assert Next(s8, OVERWRITE[8], s9) && Next(s9, OVERWRITE[9], s);
    run := run8 + [s9, s];
    Extended(run8, OVERWRITE[..8], [s9, s], OVERWRITE[8..10]);
    assert OVERWRITE[..10] == OVERWRITE[..8] + OVERWRITE[8..10];
  }

  lemma OnePrepared() returns (s: System, run: seq<System>)
    ensures IsRun(run, OVERWRITE[..11]) && run[11] == s
    ensures |s.replicas| == REPLICAS && s.replicas[0] == Promise(FRESH, 1, A1.ballot, NoFault).after
    ensures s.replicas[1] == s.replicas[2] == FRESH
    ensures s.attempts == {A1, A2} && s.proposals == [] && s.acks == {} && s.commits == {}
    ensures s.prepared == {Prepared(0, 1, A1.ballot)} && s.promises == {Reply(0, 1, A1.ballot, ZERO, NO_VALUE)}
  {
    var s10, run10 := BothWanted();
    s := AfterPromise(s10, 0, A1, Promise(s10.replicas[0], 1, A1.ballot, NoFault));
    assert Next(s10, DeliverPrepare(0, A1, NoFault), s);
    run := run10 + [s];
    Extended(run10, OVERWRITE[..10], [s], OVERWRITE[10..11]);
    assert OVERWRITE[..11] == OVERWRITE[..10] + OVERWRITE[10..11];
  }

  lemma BothPrepared() returns (s: System, run: seq<System>)
    ensures IsRun(run, OVERWRITE[..12]) && run[12] == s
    ensures |s.replicas| == REPLICAS && Shows(s, 0, Promised(A1.ballot)) && Shows(s, 1, Promised(A1.ballot)) && Shows(s, 2, EMPTY_SLOT)
    ensures s.attempts == {A1, A2} && s.proposals == [] && s.acks == {} && s.commits == {}
    ensures s.prepared == {Prepared(0, 1, A1.ballot), Prepared(1, 1, A1.ballot)}
    ensures s.promises == {Reply(0, 1, A1.ballot, ZERO, NO_VALUE), Reply(1, 1, A1.ballot, ZERO, NO_VALUE)}
  {
    var s11, run11 := OnePrepared();
    s := AfterPromise(s11, 1, A1, Promise(s11.replicas[1], 1, A1.ballot, NoFault));
    assert Next(s11, DeliverPrepare(1, A1, NoFault), s);
    run := run11 + [s];
    Extended(run11, OVERWRITE[..11], [s], OVERWRITE[11..12]);
    assert OVERWRITE[..12] == OVERWRITE[..11] + OVERWRITE[11..12];
  }

  lemma FirstProposed() returns (s: System, run: seq<System>)
    ensures IsRun(run, OVERWRITE[..13]) && run[13] == s
    ensures |s.replicas| == REPLICAS && Shows(s, 0, Promised(A1.ballot)) && Shows(s, 1, Promised(A1.ballot)) && Shows(s, 2, EMPTY_SLOT)
    ensures |s.proposals| == 1 && s.acks == {} && s.commits == {} && s.attempts == {A1, A2}
    ensures s.proposals[0].slot == 1 && s.proposals[0].ballot == A1.ballot && s.proposals[0].value == V1
    ensures s.prepared == {Prepared(0, 1, A1.ballot), Prepared(1, 1, A1.ballot)}
  {
    var s12, run12 := BothPrepared();
    var ok := [Reply(0, 1, A1.ballot, ZERO, NO_VALUE), Reply(1, 1, A1.ballot, ZERO, NO_VALUE)];
    NothingReported(ok, V1);
    s := s12.(proposals := [Proposal(1, A1.ballot, V1, ok)]);
    assert Next(s12, Propose(A1, ok), s);
    run := run12 + [s];
    Extended(run12, OVERWRITE[..12], [s], OVERWRITE[12..13]);
    assert OVERWRITE[..13] == OVERWRITE[..12] + OVERWRITE[12..13];
  }

  lemma SecondPromised() returns (s: System, run: seq<System>)
    ensures IsRun(run, OVERWRITE[..14]) && run[14] == s
    ensures |s.replicas| == REPLICAS && Shows(s, 0, Promised(A1.ballot)) && Shows(s, 1, Promised(A2.ballot)) && Shows(s, 2, EMPTY_SLOT)
    ensures |s.proposals| == 1 && s.acks == {} && s.commits == {} && s.attempts == {A1, A2}
    ensures s.proposals[0].slot == 1 && s.proposals[0].ballot == A1.ballot && s.proposals[0].value == V1
    ensures Reply(1, 1, A2.ballot, ZERO, NO_VALUE) in s.promises && Prepared(2, 1, A2.ballot) !in s.prepared
  {
    var s13, run13 := FirstProposed();
    s := AfterPromise(s13, 1, A2, Promise(s13.replicas[1], 1, A2.ballot, NoFault));
    assert Next(s13, DeliverPrepare(1, A2, NoFault), s);
    run := run13 + [s];
    Extended(run13, OVERWRITE[..13], [s], OVERWRITE[13..14]);
    assert OVERWRITE[..14] == OVERWRITE[..13] + OVERWRITE[13..14];
  }

  lemma BothProposed() returns (s: System, run: seq<System>)
    ensures IsRun(run, OVERWRITE[..16]) && run[16] == s
    ensures |s.replicas| == REPLICAS && Shows(s, 0, Promised(A1.ballot)) && Shows(s, 1, Promised(A2.ballot)) && Shows(s, 2, Promised(A2.ballot))
    ensures |s.proposals| == 2 && s.acks == {} && s.commits == {}
    ensures s.proposals[0].slot == s.proposals[1].slot == 1
    ensures s.proposals[0].ballot == A1.ballot && s.proposals[0].value == V1
    ensures s.proposals[1].ballot == A2.ballot && s.proposals[1].value == V2
  {
    var s14, run14 := SecondPromised();
    var ok := [Reply(1, 1, A2.ballot, ZERO, NO_VALUE), Reply(2, 1, A2.ballot, ZERO, NO_VALUE)];
    NothingReported(ok, V2);
    var s15 := AfterPromise(s14, 2, A2, Promise(s14.replicas[2], 1, A2.ballot, NoFault));
    assert Next(s14, DeliverPrepare(2, A2, NoFault), s15);
    s := s15.(proposals := s15.proposals + [Proposal(1, A2.ballot, V2, ok)]);
    assert Next(s15, Propose(A2, ok), s);
    run := run14 + [s15, s];
    Extended(run14, OVERWRITE[..14], [s15, s], OVERWRITE[14..16]);
    assert OVERWRITE[..16] == OVERWRITE[..14] + OVERWRITE[14..16];
  }

  lemma NothingReported(ok: seq<Reply>, want: Value)
    requires |ok| == 2 && ok[0].accepted == ZERO && ok[1].accepted == ZERO
    ensures Adopt(ok, ZERO, want) == want
  {
    assert Adopt(ok[1..], ZERO, want) == Adopt(ok[1..][1..], ZERO, want);
  }

  /** The system before the `i`th of the systems added to a run. */
  function Before(last: System, more: seq<System>, i: nat): System
    requires i <= |more|
  {
    if i == 0 then last else more[i - 1]
  }

  lemma Extended(run: seq<System>, steps: seq<Step>, more: seq<System>, moreSteps: seq<Step>)
    requires IsRun(run, steps) && |more| == |moreSteps|
    requires forall i :: 0 <= i < |more| ==> Next(Before(run[|steps|], more, i), moreSteps[i], more[i])
    ensures IsRun(run + more, steps + moreSteps)
  {
    hide Next;
    var all, allSteps := run + more, steps + moreSteps;
    forall i | 0 <= i < |allSteps| ensures Next(all[i], allSteps[i], all[i + 1]) {
      if i < |steps| {
        assert Next(run[i], steps[i], run[i + 1]);
      } else {
        var j := i - |steps|;
        assert Next(Before(run[|steps|], more, j), moreSteps[j], more[j]);
      }
    }
  }

  lemma SecondChosen() returns (s: System, run: seq<System>)
    ensures IsRun(run, OVERWRITE[..18]) && run[18] == s
    ensures |s.replicas| == REPLICAS && Shows(s, 0, Promised(A1.ballot)) && s.commits == {} && ChosenAt(s, 1)
    ensures |s.proposals| == 2 && s.proposals[0].slot == s.proposals[1].slot == 1
    ensures s.proposals[0].ballot == A1.ballot && s.proposals[0].value == V1
    ensures s.proposals[1].ballot == A2.ballot && s.proposals[1].value == V2
  {
    var s16, run16 := BothProposed();
    var s17 := AfterAccept(s16, 1, s16.proposals[1], Accept(s16.replicas[1], 1, A2.ballot, V2, NoFault));
    assert Next(s16, DeliverAccept(1, 1, NoFault), s17);
    s := AfterAccept(s17, 2, s17.proposals[1], Accept(s17.replicas[2], 1, A2.ballot, V2, NoFault));
    assert Next(s17, DeliverAccept(2, 1, NoFault), s);
    assert Ack(1, 1, A2.ballot) in s.acks && Ack(2, 1, A2.ballot) in s.acks;
    assert ChosenAt(s, 1);
    run := run16 + [s17, s];
    Extended(run16, OVERWRITE[..16], [s17, s], OVERWRITE[16..18]);
    assert OVERWRITE[..18] == OVERWRITE[..16] + OVERWRITE[16..18];
  }

  /** A committed slot does not keep its value: here replica 0 commits the chosen value and later shows another one. */
  lemma CommittedValueCanChange() returns (run: seq<System>)
    ensures IsRun(run, OVERWRITE)
    ensures ChosenAt(run[21], 1) && run[21].proposals[1].slot == 1 && run[21].proposals[1].value == V2
    ensures Shows(run[20], 0, Slot(A1.ballot, ZERO, V2, false, true))
    ensures Shows(run[21], 0, Slot(A1.ballot, A1.ballot, V1, true, true))
  {
    var s18, run18 := SecondChosen();
    var s19 := s18.(commits := s18.commits + {CommitMessage(1, V2)});
    assert Next(s18, SendCommit(1), s19);
    var s20 := AfterCommit(s19, 0, CommitMessage(1, V2), Commit(s19.replicas[0], 1, V2, NoFault));
    assert Next(s19, DeliverCommit(0, CommitMessage(1, V2), NoFault), s20);
    var s21 := AfterAccept(s20, 0, s20.proposals[0], Accept(s20.replicas[0], 1, A1.ballot, V1, NoFault));
    assert Next(s20, DeliverAccept(0, 0, NoFault), s21);
    ChosenGrows(s18, s21, 1, A2.ballot);
    run := run18 + [s19, s20, s21];
    Extended(run18, OVERWRITE[..18], [s19, s20, s21], OVERWRITE[18..]);
    assert OVERWRITE == OVERWRITE[..18] + OVERWRITE[18..];
  }
}
