/** What the protocol promises its callers, over every run. */
module PaxosTheorems {
  import opened Options
  import opened PaxosBallots
  import opened PaxosStorage
  import opened PaxosProtocol
  import opened PaxosInvariant
  import opened PaxosSteps

  lemma SameValueChosen(s: System, i: nat, j: nat)
    requires Inv(s) && ChosenAt(s, i) && ChosenAt(s, j) && s.proposals[i].slot == s.proposals[j].slot
    ensures s.proposals[i].value == s.proposals[j].value
  {
    StringLessIsTotal(s.proposals[i].ballot.node, s.proposals[j].ballot.node);
    if s.proposals[i].ballot == s.proposals[j].ballot { assert i == j; }
  }

  /** All values that ever reach an accept quorum for a slot are equal, at whatever times of a run they do. */
  lemma ChosenValuesAgree(run: seq<System>, steps: seq<Step>, k: nat, l: nat, i: nat, j: nat)
    requires IsRun(run, steps) && k <= l < |run|
    requires ChosenAt(run[k], i) && ChosenAt(run[l], j) && run[k].proposals[i].slot == run[l].proposals[j].slot
    ensures run[k].proposals[i].value == run[l].proposals[j].value
  {
    hide Inv, Chosen;
    RunKeepsInv(run, steps, l);
    ChosenStays(run, steps, k, l, i);
    SameValueChosen(run[l], i, j);
  }

  lemma {:induction false} ChosenStays(run: seq<System>, steps: seq<Step>, k: nat, l: nat, i: nat)
    requires IsRun(run, steps) && k <= l < |run| && ChosenAt(run[k], i)
    ensures ChosenAt(run[l], i) && run[l].proposals[i] == run[k].proposals[i]
    decreases l
  {
    hide Next, Chosen;
    if k < l {
      ChosenStays(run, steps, k, l - 1, i);
      StepTaken(run, steps, l - 1);
      StepGrows(run[l - 1], steps[l - 1], run[l]);
      ChosenGrows(run[l - 1], run[l], run[l].proposals[i].slot, run[l].proposals[i].ballot);
    }
  }

  /** Agreement: in every run all values with an accept quorum, all commit messages and all successful `choose` calls for
      one slot carry one value. */
  lemma Agreement(run: seq<System>, steps: seq<Step>, k: nat)
    requires IsRun(run, steps) && k < |run|
    ensures forall m, n :: m in run[k].commits && n in run[k].commits && m.slot == n.slot ==> m == n
    ensures forall o, p :: o in run[k].outcomes && p in run[k].outcomes && o.slot == p.slot ==> o == p
    ensures forall o <- run[k].outcomes :: exists j: nat ::
              ChosenAt(run[k], j) && run[k].proposals[j].slot == o.slot && run[k].proposals[j].value == o.value
    ensures forall i: nat, j: nat :: ChosenAt(run[k], i) && ChosenAt(run[k], j) && run[k].proposals[i].slot == run[k].proposals[j].slot ==>
                                       run[k].proposals[i].value == run[k].proposals[j].value
  {
    var s := run[k];
    RunKeepsInv(run, steps, k);
    forall i: nat, j: nat | ChosenAt(s, i) && ChosenAt(s, j) && s.proposals[i].slot == s.proposals[j].slot
      ensures s.proposals[i].value == s.proposals[j].value
    {
      SameValueChosen(s, i, j);
    }
    forall m, n | m in s.commits && n in s.commits && m.slot == n.slot ensures m == n {
      var i: nat :| ChosenAt(s, i) && s.proposals[i].slot == m.slot && s.proposals[i].value == m.value;
      var j: nat :| ChosenAt(s, j) && s.proposals[j].slot == n.slot && s.proposals[j].value == n.value;
      SameValueChosen(s, i, j);
    }
    forall o | o in s.outcomes ensures CommitChosen(s, CommitMessage(o.slot, o.value)) {}
  }

  // ----- where values come from -----

  predicate Proposed(s: System, slot: nat, v: Value) {
    exists p <- s.proposals :: p.slot == slot && p.value == v
  }

  /** Attempt `a` is a `Put` with the value it was called with. */
  predicate IsPut(s: System, a: Attempt) {
    a.cause.OwnValue? && a.cause.query in s.queries && s.queries[a.cause.query].put == Some(a.want)
  }

  /** Some client's `Put` asked for this value, and asked for it in this slot. */
  predicate FromClient(s: System, slot: nat, v: Value) {
    exists a <- s.attempts :: a.slot == slot && a.want == v && IsPut(s, a)
  }

  predicate StatesProposed(s: System, slots: seq<SlotState>) {
    forall x <- slots :: x.accepted.counter > 0 ==> Proposed(s, x.slot, x.value)
  }

  /** Every value `choose` was called with came from a client, and what was reported as accepted was once proposed. */
  ghost predicate ValuesFromClients(s: System) {
    && (forall a <- s.attempts :: FromClient(s, a.slot, a.want))
    && (forall answer <- s.statuses :: StatesProposed(s, answer.slots))
    && (forall query <- s.plans :: StatesProposed(s, s.plans[query].all))
  }

  /** Every proposed value came from a client: it was wanted, or an earlier proposal with it was reported. */
  lemma {:induction false} ProposedFromClient(s: System, i: nat)
    requires ProposalsFounded(s) && ValuesFromClients(s) && i < |s.proposals|
    ensures FromClient(s, s.proposals[i].slot, s.proposals[i].value)
  {
    var p := s.proposals[i];
    assert Founded(s, i, p);
    var a :| FromAttempt(s, p, a);
    AdoptPicksHighest(p.basis, ZERO, a.want);
    if p.value != a.want {
      var top :| top in p.basis && top.accepted.counter > 0 && p.value == top.value;
      assert ReportBacked(s, top, i);
      var h :| h < i && Explains(s, h, p.slot, top.accepted, p.value);
      ProposedFromClient(s, h);
    }
  }

  lemma FromClientGrows(s: System, t: System, slot: nat, v: Value)
    requires FromClient(s, slot, v) && s.attempts <= t.attempts
    requires forall query <- s.queries :: query in t.queries && t.queries[query] == s.queries[query]
    ensures FromClient(t, slot, v)
  {
    var a :| a in s.attempts && a.slot == slot && a.want == v && IsPut(s, a);
    assert IsPut(t, a);
  }

  lemma StatesProposedGrows(s: System, t: System, slots: seq<SlotState>)
    requires StatesProposed(s, slots) && s.proposals <= t.proposals
    ensures StatesProposed(t, slots)
  {
    forall x | x in slots && x.accepted.counter > 0 ensures Proposed(t, x.slot, x.value) {
      var p :| p in s.proposals && p.slot == x.slot && p.value == x.value;
      assert p in t.proposals;
    }
  }

  /** A replica reports as accepted only what was proposed for that slot. */
  lemma SnapshotProposed(s: System, r: nat, slots: seq<SlotState>)
    requires ReplicasSound(s) && r < REPLICAS && IsSnapshot(slots, s.replicas[r].mem)
    ensures StatesProposed(s, slots)
  {
    var m := s.replicas[r].mem;
    assert ReplicaSound(s, r, s.replicas[r]) && Possible(s.replicas[r], m);
    forall x | x in slots && x.accepted.counter > 0 ensures Proposed(s, x.slot, x.value) {
      assert SlotSound(s, r, x.slot, Get(m, x.slot));
      var j :| 0 <= j < |s.proposals| && Explains(s, j, x.slot, x.accepted, x.value);
      assert s.proposals[j] in s.proposals;
    }
  }

  lemma {:induction false} ReportedIsAnswered(good: seq<Status>, x: SlotState)
    requires x in Reported(good)
    ensures exists answer <- good :: x in answer.slots
  {
    if x !in good[|good| - 1].slots { ReportedIsAnswered(good[..|good| - 1], x); }
  }

  lemma WantIsFromClient(s: System, slot: nat, want: Value, cause: Cause)
    requires Inv(s) && ValuesFromClients(s) && CanPrepare(s, slot, want, cause) && cause.Redecided?
    ensures FromClient(s, slot, want)
  {
    var all := s.plans[cause.query].all;
    var x :| x in all && IsSelected(all, slot, x) && x.value == want;
    var p :| p in s.proposals && p.slot == x.slot && p.value == x.value;
    var i: nat :| i < |s.proposals| && s.proposals[i] == p;
    ProposedFromClient(s, i);
  }

  lemma StepKeepsValues(s: System, step: Step, t: System)
    requires Inv(s) && ValuesFromClients(s) && Next(s, step, t)
    ensures ValuesFromClients(t)
  {
    hide Inv, IsPut, StatesProposed;
    StepGrows(s, step, t);
    forall a | a in t.attempts ensures FromClient(t, a.slot, a.want) {
      if a in s.attempts { FromClientGrows(s, t, a.slot, a.want); } else { NewAttemptFromClient(s, step, t, a); }
    }
    forall answer | answer in t.statuses ensures StatesProposed(t, answer.slots) {
      if answer !in s.statuses { NewAnswerProposed(s, step, t, answer); } else { StatesProposedGrows(s, t, answer.slots); }
    }
    forall query | query in t.plans ensures StatesProposed(t, t.plans[query].all) {
      if step.PlanSlots? && query == step.query {
        NewPlanProposed(s, step, t);
      } else {
        StatesProposedGrows(s, t, s.plans[query].all);
      }
    }
  }

  lemma NewAttemptFromClient(s: System, step: Step, t: System, a: Attempt)
    requires Inv(s) && ValuesFromClients(s) && Next(s, step, t) && a in t.attempts && a !in s.attempts
    ensures FromClient(t, a.slot, a.want)
  {
    hide Inv;
    assert step.Prepare? && a.slot == step.slot && a.want == step.want && a.cause == step.cause;
    if a.cause.OwnValue? {
      assert IsPut(t, a);
    } else {
      WantIsFromClient(s, a.slot, a.want, a.cause);
      FromClientGrows(s, t, a.slot, a.want);
    }
  }

  lemma NewAnswerProposed(s: System, step: Step, t: System, answer: Status)
    requires Inv(s) && Next(s, step, t) && answer in t.statuses && answer !in s.statuses
    ensures StatesProposed(t, answer.slots)
  {
    hide ReplicasSound, PromisesSworn, ProposalsFounded, AcksProposed, Forward, CommitsChosen, AttemptsNumbered, StatesProposed;
    assert |s.replicas| == REPLICAS by { ThreeReplicas(s); }
    assert step.AnswerStatus? && answer.slots == step.slots;
    SnapshotProposed(s, step.r, step.slots);
    StatesProposedGrows(s, t, step.slots);
  }

  lemma ThreeReplicas(s: System)
    requires Inv(s)
    ensures |s.replicas| == REPLICAS
  {
  }

  lemma NewPlanProposed(s: System, step: Step, t: System)
    requires ValuesFromClients(s) && Next(s, step, t) && step.PlanSlots?
    ensures StatesProposed(t, t.plans[step.query].all)
  {
    forall x | x in Reported(step.good) && x.accepted.counter > 0 ensures Proposed(t, x.slot, x.value) {
      ReportedIsAnswered(step.good, x);
      var answer :| answer in step.good && x in answer.slots;
      assert StatesProposed(s, answer.slots);
    }
  }

  lemma {:induction false} RunKeepsValues(run: seq<System>, steps: seq<Step>, i: nat)
    requires IsRun(run, steps) && i < |run|
    ensures ValuesFromClients(run[i])
  {
    if i > 0 {
      RunKeepsValues(run, steps, i - 1);
      RunKeepsInv(run, steps, i - 1);
      StepKeepsValues(run[i - 1], steps[i - 1], run[i]);
    }
  }

  /** Validity: every value `choose` returns, and every value that reaches an accept quorum, is one that some client's
      `Put` asked for in that slot; what `recover` re-decides goes back to such a `Put`. */
  lemma Validity(run: seq<System>, steps: seq<Step>, k: nat)
    requires IsRun(run, steps) && k < |run|
    ensures forall o <- run[k].outcomes :: FromClient(run[k], o.slot, o.value)
    ensures forall i: nat :: ChosenAt(run[k], i) ==> FromClient(run[k], run[k].proposals[i].slot, run[k].proposals[i].value)
  {
    var s := run[k];
    RunKeepsInv(run, steps, k);
    RunKeepsValues(run, steps, k);
    forall i: nat | ChosenAt(s, i) ensures FromClient(s, s.proposals[i].slot, s.proposals[i].value) { ProposedFromClient(s, i); }
    forall o | o in s.outcomes ensures FromClient(s, o.slot, o.value) {
      assert CommitChosen(s, CommitMessage(o.slot, o.value));
      var j: nat :| ChosenAt(s, j) && s.proposals[j].slot == o.slot && s.proposals[j].value == o.value;
    }
  }

  /** `nextBallot` never issues a ballot twice. */
  lemma BallotsAreFresh(run: seq<System>, steps: seq<Step>, k: nat, node: string, slot: nat, want: Value, cause: Cause)
    requires IsRun(run, steps) && k < |steps| && steps[k] == Prepare(node, slot, want, cause)
    ensures exists b :: Attempt(slot, b, want, cause) in run[k + 1].attempts && forall a <- run[k].attempts :: a.ballot != b
  {
    RunKeepsInv(run, steps, k);
    BallotIsNew(run[k], node, slot, want, cause);
    assert Next(run[k], steps[k], run[k + 1]);
    assert Attempt(slot, Ballot(CounterOf(run[k], node) + 1, node), want, cause) in run[k + 1].attempts;
  }

  /** Durability: whatever a replica that acknowledged an acceptance may show, now or after any crash,
      is an acceptance at that ballot or a higher one. */
  lemma AcknowledgedIsDurable(run: seq<System>, steps: seq<Step>, k: nat, a: Ack, m: Slots)
    requires IsRun(run, steps) && k < |run| && a in run[k].acks
    ensures a.from < |run[k].replicas|
    ensures Possible(run[k].replicas[a.from], m) ==>
              Get(m, a.slot).hasAccepted && !Less(Get(m, a.slot).accepted, a.ballot)
              && !Less(Get(m, a.slot).promised, Get(m, a.slot).accepted)
  {
    RunKeepsInv(run, steps, k);
    if Possible(run[k].replicas[a.from], m) {
      assert ReplicaSound(run[k], a.from, run[k].replicas[a.from]);
      assert SlotSound(run[k], a.from, a.slot, Get(m, a.slot));
    }
  }

  /** At no replica, before or after any crash, is a ballot accepted above the one promised. */
  lemma AcceptedUpToPromised(run: seq<System>, steps: seq<Step>, k: nat, r: nat, m: Slots, n: nat)
    requires IsRun(run, steps) && k < |run| && r < REPLICAS
    ensures r < |run[k].replicas|
    ensures Possible(run[k].replicas[r], m) && Get(m, n).hasAccepted ==> !Less(Get(m, n).promised, Get(m, n).accepted)
  {
    RunKeepsInv(run, steps, k);
    assert ReplicaSound(run[k], r, run[k].replicas[r]);
    if Possible(run[k].replicas[r], m) { assert SlotSound(run[k], r, n, Get(m, n)); }
  }

  /** No operation, failed write or restart, and no sequence of them, lets a replica show a promise below one it was
      bound to. */
  lemma {:induction false} PromisesNeverRecede(run: seq<System>, steps: seq<Step>, i: nat, j: nat, r: nat)
    requires IsRun(run, steps) && i <= j < |run| && r < REPLICAS
    ensures |run[i].replicas| == |run[j].replicas| == REPLICAS
    ensures KeepsPromises(run[i].replicas[r], run[j].replicas[r])
    decreases j
  {
    hide Holds, Next;
    RunReplicas(run, steps, i);
    RunReplicas(run, steps, j);
    if i < j {
      StepTaken(run, steps, j - 1);
      PromisesNeverRecede(run, steps, i, j - 1, r);
      StepKeepsPromises(run, steps, j - 1, r);
    }
  }

  lemma StepKeepsPromises(run: seq<System>, steps: seq<Step>, k: nat, r: nat)
    requires IsRun(run, steps) && k < |steps| && r < REPLICAS
    ensures |run[k].replicas| == |run[k + 1].replicas| == REPLICAS
    ensures KeepsPromises(run[k].replicas[r], run[k + 1].replicas[r])
  {
    hide Inv, KeepsPromises, IsRun;
    StepTaken(run, steps, k);
    RunReplicas(run, steps, k);
    RunReplicas(run, steps, k + 1);
    var s := run[k];
    KeepsOwnPromises(s.replicas[r]);
    match steps[k]
    case DeliverPrepare(q, a, fault) => OperationsKeep(s.replicas[q], a.slot, a.ballot, NO_VALUE, fault);
    case DeliverAccept(q, i, fault) => OperationsKeep(s.replicas[q], s.proposals[i].slot, s.proposals[i].ballot, s.proposals[i].value, fault);
    case DeliverCommit(q, m, fault) => OperationsKeep(s.replicas[q], m.slot, ZERO, m.value, fault);
    case RestartReplica(q, j, synced) => RestartKeeps(s.replicas[q], j, synced);
    case _ =>
  }

  lemma StepTaken(run: seq<System>, steps: seq<Step>, k: nat)
    requires IsRun(run, steps) && k < |steps|
    ensures |run| == |steps| + 1 && Next(run[k], steps[k], run[k + 1])
  {
  }

  lemma RunReplicas(run: seq<System>, steps: seq<Step>, k: nat)
    requires IsRun(run, steps) && k < |run|
    ensures |run[k].replicas| == REPLICAS && forall r :: 0 <= r < REPLICAS ==> run[k].replicas[r].synced <= |run[k].replicas[r].log|
  {
    RunKeepsInv(run, steps, k);
    forall r | 0 <= r < REPLICAS ensures run[k].replicas[r].synced <= |run[k].replicas[r].log| {
      assert ReplicaSound(run[k], r, run[k].replicas[r]);
    }
  }

  lemma OperationsKeep(rep: Replica, slot: nat, b: Ballot, v: Value, fault: Fault)
    requires rep.synced <= |rep.log|
    ensures KeepsPromises(rep, Promise(rep, slot, b, fault).after)
    ensures KeepsPromises(rep, Accept(rep, slot, b, v, fault).after)
    ensures KeepsPromises(rep, Commit(rep, slot, v, fault).after)
  {
    hide KeepsPromises, OneRecordLater, Append;
    KeepsOwnPromises(rep);
    AppendIsOneRecordLater(rep, PromiseRecord(slot, b), fault);
    RecordKeepsPromises(rep, Append(rep, PromiseRecord(slot, b), fault).after, PromiseRecord(slot, b));
    AppendIsOneRecordLater(rep, CommitRecord(slot, v), fault);
    RecordKeepsPromises(rep, Append(rep, CommitRecord(slot, v), fault).after, CommitRecord(slot, v));
    if !Less(b, Get(rep.mem, slot).promised) {
      AppendIsOneRecordLater(rep, AcceptRecord(slot, b, v), fault);
      AcceptKeepsPromises(rep, Append(rep, AcceptRecord(slot, b, v), fault).after, AcceptRecord(slot, b, v));
    }
  }

  lemma RestartKeeps(rep: Replica, k: nat, synced: nat)
    requires CanRestart(rep, k, synced)
    ensures KeepsPromises(rep, Restart(rep, k, synced))
  {
    hide Less;
    forall n, b | Holds(rep, n, b) ensures Holds(Restart(rep, k, synced), n, b) {
      forall m | Possible(Restart(rep, k, synced), m) ensures !Less(Get(m, n).promised, b) {
        RestartPossible(rep, k, synced, m);
      }
    }
  }

  // ----- real-time order of writes -----

  /** An answer lists slot `n` as accepted or committed. */
  predicate Lists(slots: seq<SlotState>, n: nat) {
    exists x <- slots :: x.slot == n && Counts(x)
  }

  /** Replicas `r` and `q` had acknowledged slot `n` before the query, so their answers list it. */
  ghost predicate Witnessed(s: System, query: nat, n: nat, r: nat, q: nat, b: Ballot) {
    && r < REPLICAS && q < REPLICAS && r != q
    && Ack(r, n, b) in s.acks && Ack(q, n, b) in s.acks
    && forall a <- s.statuses :: a.query == query && (a.from == r || a.from == q) ==> Lists(a.slots, n)
  }

  ghost predicate HasWitness(s: System, query: nat, n: nat) {
    exists r, q, b :: Witnessed(s, query, n, r, q, b)
  }

  /** Every slot chosen before a query began lies within the end of the log it saw, and a `Put` takes the slot after. */
  ghost predicate QueriesWitnessed(s: System) {
    && (forall a <- s.statuses :: a.query in s.queries && a.from < REPLICAS)
    && (forall query <- s.plans :: query in s.queries && forall n <- s.queries[query].before :: n <= s.plans[query].end)
    && (forall query <- s.queries, n <- s.queries[query].before :: HasWitness(s, query, n))
  }

  predicate PutsBehindPlans(s: System) {
    && (forall query <- s.plans :: query in s.queries)
    && forall a <- s.attempts :: a.cause.OwnValue? ==>
         IsPut(s, a) && a.cause.query in s.plans && a.slot == s.plans[a.cause.query].end + 1
  }

  lemma ListedWhenAcked(s: System, r: nat, n: nat, b: Ballot, slots: seq<SlotState>)
    requires Inv(s) && r < REPLICAS && Ack(r, n, b) in s.acks && IsSnapshot(slots, s.replicas[r].mem)
    ensures Lists(slots, n)
  {
    var m := s.replicas[r].mem;
    assert ReplicaSound(s, r, s.replicas[r]) && Possible(s.replicas[r], m);
    assert SlotSound(s, r, n, Get(m, n));
    assert StateOf(n, m[n]) in slots;
  }

  lemma ChosenSlotWitnessed(s: System, query: nat, n: nat)
    requires n in ChosenSlots(s) && forall a <- s.statuses :: a.query != query
    ensures HasWitness(s, query, n)
  {
    var i: nat :| i < |s.proposals| && ChosenAt(s, i) && s.proposals[i].slot == n;
    var b := s.proposals[i].ballot;
    var r, q :| 0 <= r < REPLICAS && 0 <= q < REPLICAS && r != q && Ack(r, n, b) in s.acks && Ack(q, n, b) in s.acks;
    assert Witnessed(s, query, n, r, q, b);
  }

  lemma WitnessKept(s: System, step: Step, t: System, query: nat, n: nat)
    requires Inv(s) && Next(s, step, t) && step.AnswerStatus? && HasWitness(s, query, n)
    ensures HasWitness(t, query, n)
  {
    hide Inv, Next, Witnessed;
    var r, q, b :| Witnessed(s, query, n, r, q, b);
    AnswerGiven(s, step, t);
    NewAnswerLists(s, step, query, n, r, q, b);
    WitnessedOn(s, t, query, n, r, q, b, Status(step.query, step.r, step.slots));
  }

  lemma AnswerGiven(s: System, step: Step, t: System)
    requires Next(s, step, t) && step.AnswerStatus?
    ensures step.r < |s.replicas| && IsSnapshot(step.slots, s.replicas[step.r].mem)
    ensures t == s.(statuses := s.statuses + {Status(step.query, step.r, step.slots)})
  {
    hide IsSnapshot;
  }

  /** An answer of one of the two that had acknowledged the slot lists it. */
  lemma NewAnswerLists(s: System, step: Step, query: nat, n: nat, r: nat, q: nat, b: Ballot)
    requires Inv(s) && step.AnswerStatus? && step.r < |s.replicas| && IsSnapshot(step.slots, s.replicas[step.r].mem)
    requires Witnessed(s, query, n, r, q, b)
    ensures step.r == r || step.r == q ==> Lists(step.slots, n)
  {
    hide Inv, Lists, IsSnapshot;
    if step.r == r || step.r == q { ListedWhenAcked(s, step.r, n, b, step.slots); }
  }

  lemma WitnessedOn(s: System, t: System, query: nat, n: nat, r: nat, q: nat, b: Ballot, answer: Status)
    requires Witnessed(s, query, n, r, q, b) && t.acks == s.acks && t.statuses == s.statuses + {answer}
    requires answer.from == r || answer.from == q ==> Lists(answer.slots, n)
    ensures HasWitness(t, query, n)
  {
    hide Lists;
    assert Witnessed(t, query, n, r, q, b);
  }

  lemma {:induction false} AnswersAreReported(good: seq<Status>, i: nat, x: SlotState)
    requires i < |good| && x in good[i].slots
    ensures x in Reported(good)
  {
    if i < |good| - 1 { AnswersAreReported(good[..|good| - 1], i, x); }
  }

  /** Two answers out of three include one from the quorum that acknowledged slot `n`. */
  lemma PlanPassesWitnessed(s: System, query: nat, good: seq<Status>, end: nat, n: nat)
    requires QueriesWitnessed(s) && CanPlan(s, query, good) && IsEndOfLog(Reported(good), end) && n in s.queries[query].before
    ensures n <= end
  {
    assert HasWitness(s, query, n);
    var r, q, b :| Witnessed(s, query, n, r, q, b);
    assert good[0] in s.statuses && good[1] in s.statuses && good[0].from != good[1].from;
    var i := if good[0].from == r || good[0].from == q then 0 else 1;
    var x :| x in good[i].slots && x.slot == n && Counts(x);
    AnswersAreReported(good, i, x);
  }

  lemma StepKeepsWitnessed(s: System, step: Step, t: System)
    requires Inv(s) && QueriesWitnessed(s) && Next(s, step, t)
    ensures QueriesWitnessed(t)
  {
    hide Inv, HasWitness, ChosenSlots, IsSnapshot, IsEndOfLog, CanPrepare, Reported, Promise, Accept, Commit, CanPropose, CanRestart, ChosenAt;
    match step
    case Ask(query, put) => AskedWitnessed(s, query, put, t);
    case AnswerStatus(r, query, _) =>
      assert |s.replicas| == REPLICAS by { ThreeReplicas(s); }
      forall x, n | x in t.queries && n in t.queries[x].before { WitnessKept(s, step, t, x, n); }
    case PlanSlots(query, good, end) =>
      forall n | n in s.queries[query].before ensures n <= end { PlanPassesWitnessed(s, query, good, end, n); }
      SameWitnesses(s, t);
    case _ => SameWitnesses(s, t);
  }

  lemma AskedWitnessed(s: System, query: nat, put: Option<Value>, t: System)
    requires QueriesWitnessed(s) && query !in s.queries && t == s.(queries := s.queries[query := Query(put, ChosenSlots(s))])
    ensures QueriesWitnessed(t)
  {
    hide ChosenSlots;
    forall x, n | x in t.queries && n in t.queries[x].before ensures HasWitness(t, x, n) {
      if x == query { ChosenSlotWitnessed(s, query, n); }
      var r, q, b :| Witnessed(s, x, n, r, q, b);
      assert Witnessed(t, x, n, r, q, b);
    }
  }

  lemma SameWitnesses(s: System, t: System)
    requires QueriesWitnessed(s) && s.acks <= t.acks && t.queries == s.queries && t.statuses == s.statuses
    ensures forall query <- t.queries, n <- t.queries[query].before :: HasWitness(t, query, n)
  {
    forall query, n | query in t.queries && n in t.queries[query].before ensures HasWitness(t, query, n) {
      assert HasWitness(s, query, n);
      var r, q, b :| Witnessed(s, query, n, r, q, b);
      assert Witnessed(t, query, n, r, q, b);
    }
  }

  lemma {:induction false} RunKeepsWitnessed(run: seq<System>, steps: seq<Step>, i: nat)
    requires IsRun(run, steps) && i < |run|
    ensures QueriesWitnessed(run[i])
  {
    if i > 0 {
      RunKeepsWitnessed(run, steps, i - 1);
      RunKeepsInv(run, steps, i - 1);
      StepKeepsWitnessed(run[i - 1], steps[i - 1], run[i]);
    }
  }

  lemma StepKeepsPuts(s: System, step: Step, t: System)
    requires PutsBehindPlans(s) && Next(s, step, t)
    ensures PutsBehindPlans(t)
  {
    hide SelectsValue, IsEndOfLog, Reported, ChosenSlots, IsSnapshot;
  }

  lemma {:induction false} RunKeepsPuts(run: seq<System>, steps: seq<Step>, i: nat)
    requires IsRun(run, steps) && i < |run|
    ensures PutsBehindPlans(run[i])
  {
    if i > 0 {
      RunKeepsPuts(run, steps, i - 1);
      StepKeepsPuts(run[i - 1], steps[i - 1], run[i]);
    }
  }

  lemma StepGrows(s: System, step: Step, t: System)
    requires Next(s, step, t)
    ensures s.acks <= t.acks && s.proposals <= t.proposals && s.attempts <= t.attempts
    ensures forall query <- s.queries :: query in t.queries && t.queries[query] == s.queries[query]
    ensures forall o <- s.outcomes :: o in t.outcomes
  {
  }

  /** A slot chosen once stays chosen, and what a query saw at its start is fixed. */
  lemma {:induction false} RunGrows(run: seq<System>, steps: seq<Step>, i: nat, j: nat)
    requires IsRun(run, steps) && i <= j < |run|
    ensures ChosenSlots(run[i]) <= ChosenSlots(run[j])
    ensures forall query <- run[i].queries :: query in run[j].queries && run[j].queries[query] == run[i].queries[query]
    decreases j
  {
    if i < j {
      RunGrows(run, steps, i, j - 1);
      StepGrows(run[j - 1], steps[j - 1], run[j]);
      forall n | n in ChosenSlots(run[j - 1]) ensures n in ChosenSlots(run[j]) {
        var k: nat :| k < |run[j - 1].proposals| && ChosenAt(run[j - 1], k) && run[j - 1].proposals[k].slot == n;
        ChosenGrows(run[j - 1], run[j], n, run[j - 1].proposals[k].ballot);
        assert ChosenAt(run[j], k);
      }
    }
  }

  /** A slot at which `choose` succeeded is among those a later query starts from. */
  lemma OutcomeIsBefore(run: seq<System>, steps: seq<Step>, i: nat, k: nat, o: Outcome, query: nat, put: Option<Value>)
    requires IsRun(run, steps) && i <= k < |steps| && o in run[i].outcomes && steps[k] == Ask(query, put)
    ensures query !in run[k].queries && query in run[k + 1].queries
    ensures run[k + 1].queries[query].put == put && o.slot in run[k + 1].queries[query].before
  {
    RunKeepsInv(run, steps, i);
    assert CommitChosen(run[i], CommitMessage(o.slot, o.value));
    assert o.slot in ChosenSlots(run[i]);
    RunGrows(run, steps, i, k);
    assert Next(run[k], steps[k], run[k + 1]);
  }

  /** Real-time order: if `choose` has succeeded at slot `o.slot` when a later `Put` asks for the state of the replicas,
      then whatever that `Put` asks for and proposes under its own ballots is for a slot beyond it. */
  lemma RealTimeOrder(run: seq<System>, steps: seq<Step>, i: nat, k: nat, j: nat, o: Outcome, query: nat, put: Option<Value>, a: Attempt)
    requires IsRun(run, steps) && i <= k < |steps| && j < |run|
    requires o in run[i].outcomes && steps[k] == Ask(query, put)
    requires a in run[j].attempts && a.cause == OwnValue(query)
    ensures o.slot < a.slot && put == Some(a.want)
    ensures forall p <- run[j].proposals :: p.ballot == a.ballot ==> o.slot < p.slot
  {
    hide Inv, Next, ChosenSlots, HasWitness;
    OutcomeIsBefore(run, steps, i, k, o, query, put);
    RunKeepsWitnessed(run, steps, j);
    RunKeepsPuts(run, steps, j);
    if j <= k {
      RunGrows(run, steps, j, k);
      assert false;
    }
    RunGrows(run, steps, k + 1, j);
    OwnProposals(run, steps, j, a);
  }

  /** What is proposed under the ballot of an attempt is for the attempt's slot. */
  lemma OwnProposals(run: seq<System>, steps: seq<Step>, j: nat, a: Attempt)
    requires IsRun(run, steps) && j < |run| && a in run[j].attempts
    ensures forall p <- run[j].proposals :: p.ballot == a.ballot ==> p.slot == a.slot
  {
    var s := run[j];
    RunKeepsInv(run, steps, j);
    forall p | p in s.proposals && p.ballot == a.ballot ensures p.slot == a.slot {
      var i :| 0 <= i < |s.proposals| && s.proposals[i] == p;
      assert Founded(s, i, s.proposals[i]);
      var b :| FromAttempt(s, p, b);
    }
  }
}
