/** Every replica of every run lives one of the lives of an acceptor; what that means for acknowledgements. */
module PaxosDurable {
  import opened PaxosBallots
  import opened PaxosStorage
  import opened PaxosProtocol
  import opened PaxosInvariant
  import opened PaxosSteps
  import opened PaxosTheorems
  import opened PaxosLives

  /** A step is nothing to a replica, or one event of its life. */
  lemma StepIsEvent(s: System, step: Step, t: System, r: nat) returns (events: seq<Event>)
    requires Next(s, step, t) && r < |s.replicas|
    ensures |events| <= 1 && |t.replicas| == |s.replicas| && t.replicas[r] == Onward(s.replicas[r], events)
  {
    hide Promise, Accept, Commit, CanPropose, CanPlan, CanPrepare, CanReturn, ChosenAt, ChosenSlots, IsSnapshot, IsEndOfLog;
    events := [];
    match step
    case DeliverPrepare(q, a, fault) => if q == r { events := [Did(PromiseOp(a.slot, a.ballot, fault))]; }
    case DeliverAccept(q, i, fault) =>
      if q == r { events := [Did(AcceptOp(s.proposals[i].slot, s.proposals[i].ballot, s.proposals[i].value, fault))]; }
    case DeliverCommit(q, m, fault) => if q == r { events := [Did(CommitOp(m.slot, m.value, fault))]; }
    case RestartReplica(q, k, synced) => if q == r { events := [Crashed(k, synced)]; }
    case _ =>
  }

  lemma {:induction false} OnwardOn(rep: Replica, a: seq<Event>, b: seq<Event>)
    ensures Onward(rep, a + b) == Onward(Onward(rep, a), b)
  {
    if b == [] {
      assert a + b == a;
    } else {
      assert (a + b)[..|a + b| - 1] == a + b[..|b| - 1];
      OnwardOn(rep, a, b[..|b| - 1]);
    }
  }

  /** So whatever holds of all lives holds of all replicas in all runs. */
  lemma {:induction false} ReplicasLive(run: seq<System>, steps: seq<Step>, k: nat, r: nat) returns (events: seq<Event>)
    requires IsRun(run, steps) && k < |run| && r < REPLICAS
    ensures |run[k].replicas| == REPLICAS && run[k].replicas[r] == Life(events)
  {
    hide Next, After, Onward;
    if k == 0 {
      events := [];
      NoEvents();
    } else {
      var before := ReplicasLive(run, steps, k - 1, r);
      StepTaken(run, steps, k - 1);
      var more := StepIsEvent(run[k - 1], steps[k - 1], run[k], r);
      OnwardOn(FRESH, before, more);
      events := before + more;
    }
  }

  lemma NoEvents()
    ensures Life([]) == FRESH
  {
  }

  lemma {:induction false} ReplicasGoOn(run: seq<System>, steps: seq<Step>, i: nat, j: nat, r: nat) returns (events: seq<Event>)
    requires IsRun(run, steps) && i <= j < |run| && r < REPLICAS
    ensures |run[i].replicas| == |run[j].replicas| == REPLICAS && run[j].replicas[r] == Onward(run[i].replicas[r], events)
    decreases j
  {
    hide Next, After;
    RunReplicas(run, steps, i);
    if i == j {
      events := [];
    } else {
      var before := ReplicasGoOn(run, steps, i, j - 1, r);
      StepTaken(run, steps, j - 1);
      var more := StepIsEvent(run[j - 1], steps[j - 1], run[j], r);
      OnwardOn(run[i].replicas[r], before, more);
      events := before + more;
    }
  }

  /** Promises: one that a replica acknowledged binds it at every later time, whatever fails or crashes, unless the ballot
      had already made its proposal, so that no answer to it counts any more. */
  lemma AcknowledgedPromiseBinds(run: seq<System>, steps: seq<Step>, k: nat, j: nat, r: nat, a: Attempt, fault: Fault)
    requires IsRun(run, steps) && k < j < |run| && k < |steps| && steps[k] == DeliverPrepare(r, a, fault)
    requires r < |run[k].replicas| && Promise(run[k].replicas[r], a.slot, a.ballot, fault).ok
    ensures HasProposal(run[k], a.slot, a.ballot) || (r < |run[j].replicas| && Holds(run[j].replicas[r], a.slot, a.ballot))
  {
    hide ReplicaSound, SlotSound, HasProposal, IsRun, Promise, KeepsPromises, Inv, CoversAcks, ReportBacked, Holds;
    StepTaken(run, steps, k);
    var s, t := run[k], run[k + 1];
    RunKeepsInv(run, steps, k);
    RunReplicas(run, steps, k);
    PrepareIsFirst(s, a, r);
    NewPromiseCredible(s, t, r, a, fault);
    SameProposals(s, t, a, fault, r);
    if !HasProposal(s, a.slot, a.ballot) {
      assert Holds(t.replicas[r], a.slot, a.ballot);
      PromisesNeverRecede(run, steps, k + 1, j, r);
      HoldsOn(t.replicas[r], run[j].replicas[r], a.slot, a.ballot);
    }
  }

  lemma PrepareIsFirst(s: System, a: Attempt, r: nat)
    requires Inv(s) && a in s.attempts && r < REPLICAS
    ensures a.ballot.counter > 0 && r < |s.replicas| && ReplicaSound(s, r, s.replicas[r])
  {
  }

  lemma SameProposals(s: System, t: System, a: Attempt, fault: Fault, r: nat)
    requires r < |s.replicas| && t == AfterPromise(s, r, a, Promise(s.replicas[r], a.slot, a.ballot, fault))
    ensures HasProposal(t, a.slot, a.ballot) <==> HasProposal(s, a.slot, a.ballot)
  {
    hide Promise;
  }

  lemma HoldsOn(before: Replica, after: Replica, n: nat, b: Ballot)
    requires KeepsPromises(before, after) && Holds(before, n, b)
    ensures Holds(after, n, b)
  {
    hide Holds;
  }

  /** Commits: a replica that acknowledged one shows the slot as committed at every later time, now and after any crash. */
  lemma AcknowledgedCommitStays(run: seq<System>, steps: seq<Step>, k: nat, j: nat, r: nat, m: CommitMessage, fault: Fault)
    requires IsRun(run, steps) && k < j < |run| && k < |steps| && steps[k] == DeliverCommit(r, m, fault)
    requires r < REPLICAS && r < |run[k].replicas| && Commit(run[k].replicas[r], m.slot, m.value, fault).ok
    ensures r < |run[j].replicas| && forall x :: Possible(run[j].replicas[r], x) ==> Get(x, m.slot).committed
  {
    hide IsRun, Append, Survives, Onward, SinceStart, Possible;
    var op := CommitOp(m.slot, m.value, fault);
    var events := ReplicasLive(run, steps, k, r);
    StepTaken(run, steps, k);
    AcknowledgedSurvivesIff(events, op);
    PerformIsAppend(run[k].replicas[r], op);
    var more := ReplicasGoOn(run, steps, k + 1, j, r);
    RunReplicas(run, steps, k + 1);
    SurvivesIffSecured(run[k + 1].replicas[r], op);
    OnwardKeepsSecured(run[k + 1].replicas[r], more, op);
    forall x | Possible(run[j].replicas[r], x) ensures Get(x, m.slot).committed { assert Kept(x, op); }
  }
}
