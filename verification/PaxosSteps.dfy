/** Every step keeps the invariant. */
module PaxosSteps {
  import opened PaxosBallots
  import opened PaxosStorage
  import opened PaxosProtocol
  import opened PaxosInvariant

  /** Everything one replica may show afterwards, it might have shown before, or is such a table
      with one more record applied. */
  ghost predicate OneRecordLater(before: Replica, after: Replica, rec: Record) {
    forall m :: Possible(after, m) ==>
                  Possible(before, m) || exists x :: Possible(before, x) && m == Apply(x, rec)
  }

  lemma AppendIsOneRecordLater(rep: Replica, rec: Record, fault: Fault)
    requires rep.synced <= |rep.log|
    ensures OneRecordLater(rep, Append(rep, rec, fault).after, rec)
  {
    forall m | Possible(Append(rep, rec, fault).after, m)
      ensures Possible(rep, m) || exists x :: Possible(rep, x) && m == Apply(x, rec)
    {
      AppendPossible(rep, rec, fault, m);
    }
  }

  ghost predicate KeepsPromises(before: Replica, after: Replica) {
    forall n, b :: Holds(before, n, b) ==> Holds(after, n, b)
  }

  /** No record but an acceptance lowers a promise. */
  lemma RecordKeepsPromises(before: Replica, after: Replica, rec: Record)
    requires OneRecordLater(before, after, rec) && !rec.AcceptRecord?
    ensures KeepsPromises(before, after)
  {
    hide Possible, Less;
    forall n, b | Holds(before, n, b) ensures Holds(after, n, b) {
      forall m | Possible(after, m) ensures !Less(Get(m, n).promised, b) {
        if !Possible(before, m) {
          var x :| Possible(before, x) && m == Apply(x, rec);
          PromisedRises(Get(x, n), rec, b);
        }
      }
    }
  }

  lemma PromisedRises(x: Slot, rec: Record, b: Ballot)
    requires !rec.AcceptRecord? && !Less(x.promised, b)
    ensures !Less(ApplyTo(x, rec).promised, b)
  {
    if rec.PromiseRecord? {
      Compare(x.promised, rec.ballot);
      if Less(x.promised, rec.ballot) { AtLeastTransitive(rec.ballot, x.promised, b); }
    }
  }

  /** Nor does an acceptance at a ballot that is no lower than the promise in memory. */
  lemma AcceptKeepsPromises(before: Replica, after: Replica, rec: Record)
    requires OneRecordLater(before, after, rec) && rec.AcceptRecord?
    requires !Less(rec.ballot, Get(before.mem, rec.slot).promised)
    ensures KeepsPromises(before, after)
  {
    StrictTotalOrder();
    assert Possible(before, before.mem);
    forall n, b | Holds(before, n, b) ensures Holds(after, n, b) {
      forall m | Possible(after, m) ensures !Less(Get(m, n).promised, b) {
        if !Possible(before, m) {
          var x :| Possible(before, x) && m == Apply(x, rec);
          assert !Less(Get(x, n).promised, b);
          assert !Less(Get(before.mem, n).promised, b);
        }
      }
    }
  }

  /** Every acknowledgement that is new in `t` respects the promises binding in `s`, which stay binding. */
  ghost predicate Respects(s: System, t: System) {
    && |t.replicas| == |s.replicas| == REPLICAS
    && (forall p: Reply, b :: p.from < REPLICAS && Binding(s, p) && Less(b, p.ballot) && Ack(p.from, p.slot, b) in t.acks ==>
                               Ack(p.from, p.slot, b) in s.acks)
    && (forall r :: 0 <= r < REPLICAS ==> KeepsPromises(s.replicas[r], t.replicas[r]))
  }

  lemma SwornGrows(s: System, t: System, p: Reply, upto: nat)
    requires Grows(s, t) && Respects(s, t) && Sworn(s, p, upto) && p.from < REPLICAS
    ensures forall n :: upto <= n ==> Sworn(t, p, n)
  {
    if p.accepted.counter > 0 { BackedGrows(s, t, p.slot, p.accepted, p.value, upto); }
    assert Holds(s.replicas[p.from], p.slot, p.ballot);
  }

  ghost predicate Credible(s: System, p: Reply) {
    p.from < REPLICAS && (HasProposal(s, p.slot, p.ballot) || Sworn(s, p, |s.proposals|))
  }

  lemma CredibleGrows(s: System, t: System, p: Reply)
    requires Grows(s, t) && Respects(s, t) && Credible(s, p)
    ensures Credible(t, p)
  {
    if HasProposal(s, p.slot, p.ballot) {
      HasProposalGrows(s, t, p.slot, p.ballot);
    } else {
      SwornGrows(s, t, p, |s.proposals|);
    }
  }

  lemma FoundedGrows(s: System, t: System, i: nat, p: Proposal)
    requires Grows(s, t) && Respects(s, t) && Founded(s, i, p)
    ensures Founded(t, i, p)
  {
    forall q | q in p.basis ensures Sworn(t, q, i) { SwornGrows(s, t, q, i); }
    var a :| FromAttempt(s, p, a);
    assert FromAttempt(t, p, a);
  }

  lemma ProposalsStayFounded(s: System, t: System)
    requires Grows(s, t) && Respects(s, t) && t.proposals == s.proposals && ProposalsFounded(s)
    ensures ProposalsFounded(t)
  {
    forall i | 0 <= i < |t.proposals| ensures Founded(t, i, t.proposals[i]) {
      FoundedGrows(s, t, i, t.proposals[i]);
    }
  }

  /** The parts of the invariant about promises, proposals and acknowledgements. */
  lemma HistoryGrows(s: System, t: System)
    requires Grows(s, t) && Respects(s, t) && |t.proposals| <= |s.proposals| + 1
    requires PromisesSworn(s) && ProposalsFounded(s) && AcksProposed(s) && Forward(s) && ProposalsFounded(t)
    requires forall p <- t.promises :: p in s.promises || Credible(t, p)
    requires forall a <- t.acks :: a in s.acks || (a.from < REPLICAS && HasProposal(t, a.slot, a.ballot))
    requires t.acks == s.acks || |t.proposals| == |s.proposals|
    requires forall k, q :: |s.proposals| <= k < |t.proposals| && q in t.proposals[k].basis ==> ReportBacked(s, q, k)
    ensures PromisesSworn(t) && AcksProposed(t) && Forward(t)
  {
    forall p | p in t.promises ensures Credible(t, p) {
      if p in s.promises { CredibleGrows(s, t, p); }
    }
    forall a | a in t.acks ensures a.from < REPLICAS && HasProposal(t, a.slot, a.ballot) {
      if a in s.acks { HasProposalGrows(s, t, a.slot, a.ballot); }
    }
    forall k, q | 0 <= k < |t.proposals| && q in t.proposals[k].basis ensures ReportBacked(s, q, k) {
      if k < |s.proposals| { assert Founded(s, k, s.proposals[k]); }
    }
    ForwardKept(s, t);
  }

  /** Acknowledgements only exist for ballots that have already proposed. */
  lemma ChosenIsOld(s: System, t: System, j: nat)
    requires AcksProposed(s) && ProposalsFounded(t) && s.proposals <= t.proposals
    requires t.acks == s.acks || |t.proposals| == |s.proposals|
    requires ChosenAt(t, j)
    ensures j < |s.proposals|
  {
    if t.acks == s.acks {
      var p := t.proposals[j];
      var r, q :| 0 <= r < REPLICAS && 0 <= q < REPLICAS && r != q && Ack(r, p.slot, p.ballot) in s.acks && Ack(q, p.slot, p.ballot) in s.acks;
      var a := Ack(r, p.slot, p.ballot);
      var k :| 0 <= k < |s.proposals| && s.proposals[k].slot == a.slot && s.proposals[k].ballot == a.ballot;
      assert t.proposals[k] == s.proposals[k];
    }
  }

  lemma ForwardKept(s: System, t: System)
    requires Forward(s) && ProposalsFounded(t) && AcksProposed(s)
    requires s.proposals <= t.proposals && |t.proposals| <= |s.proposals| + 1
    requires t.acks == s.acks || |t.proposals| == |s.proposals|
    requires forall k, q :: 0 <= k < |t.proposals| && q in t.proposals[k].basis ==> ReportBacked(s, q, k)
    ensures Forward(t)
  {
    forall i, j | 0 <= i < |t.proposals| && 0 <= j < |t.proposals|
                  && t.proposals[i].slot == t.proposals[j].slot
                  && Less(t.proposals[j].ballot, t.proposals[i].ballot) && ChosenAt(t, j)
      ensures t.proposals[i].value == t.proposals[j].value
    {
      ChosenIsOld(s, t, j);
      FollowsChosen(s, t, j, i);
    }
  }

  ghost predicate CommitChosen(s: System, m: CommitMessage) {
    exists j: nat :: ChosenAt(s, j) && s.proposals[j].slot == m.slot && s.proposals[j].value == m.value
  }

  lemma CommitChosenGrows(s: System, t: System, m: CommitMessage)
    requires Grows(s, t) && CommitChosen(s, m)
    ensures CommitChosen(t, m)
  {
    var j: nat :| ChosenAt(s, j) && s.proposals[j].slot == m.slot && s.proposals[j].value == m.value;
    ChosenGrows(s, t, s.proposals[j].slot, s.proposals[j].ballot);
    assert ChosenAt(t, j);
  }

  /** Commits, their acknowledgements and outcomes: what is new has its reason. */
  lemma CommitsKept(s: System, t: System)
    requires CommitsChosen(s) && Grows(s, t)
    requires forall m <- t.commits :: m in s.commits || CommitChosen(s, m)
    requires s.commits <= t.commits
    requires forall a <- t.commitAcks :: a in s.commitAcks || CommitMessage(a.slot, a.value) in t.commits
    requires forall o <- t.outcomes :: o in s.outcomes || CommitMessage(o.slot, o.value) in t.commits
    ensures CommitsChosen(t)
  {
    forall m | m in t.commits ensures CommitChosen(t, m) {
      assert CommitChosen(s, m);
      CommitChosenGrows(s, t, m);
    }
  }

  /** What is new between `s` and `t`, all accounted for. */
  ghost predicate Accounted(s: System, t: System) {
    && Grows(s, t) && Respects(s, t) && |t.proposals| <= |s.proposals| + 1
    && (forall p <- t.promises :: p in s.promises || Credible(t, p))
    && (forall a <- t.acks :: a in s.acks || (a.from < REPLICAS && HasProposal(t, a.slot, a.ballot)))
    && (t.acks == s.acks || |t.proposals| == |s.proposals|)
    && (forall k, q :: |s.proposals| <= k < |t.proposals| && q in t.proposals[k].basis ==> ReportBacked(s, q, k))
    && s.commits <= t.commits
    && (forall m <- t.commits :: m in s.commits || CommitChosen(s, m))
    && (forall a <- t.commitAcks :: a in s.commitAcks || CommitMessage(a.slot, a.value) in t.commits)
    && (forall o <- t.outcomes :: o in s.outcomes || CommitMessage(o.slot, o.value) in t.commits)
  }

  lemma Assemble(s: System, t: System)
    requires Inv(s) && Accounted(s, t)
    requires ReplicasSound(t) && ProposalsFounded(t) && AttemptsNumbered(t)
    ensures Inv(t)
  {
    hide ReplicasSound, PromisesSworn, ProposalsFounded, AcksProposed, Forward, CommitsChosen, AttemptsNumbered;
    hide Respects, Credible, CommitChosen, HasProposal, ReportBacked;
    HistoryGrows(s, t);
    CommitsKept(s, t);
  }

  lemma KeepsOwnPromises(rep: Replica)
    ensures KeepsPromises(rep, rep)
  {
  }

  // ----- steps that touch no replica -----

  lemma UntouchedReplicas(s: System, t: System)
    requires ReplicasSound(s) && Grows(s, t) && t.acks == s.acks && t.replicas == s.replicas
    ensures ReplicasSound(t) && Respects(s, t)
  {
    forall r | 0 <= r < REPLICAS ensures ReplicaSound(t, r, t.replicas[r]) {
      ReplicaSoundGrows(s, t, r, s.replicas[r]);
    }
  }

  lemma QuietStep(s: System, t: System)
    requires Inv(s)
    requires t.replicas == s.replicas && t.prepared == s.prepared && t.promises == s.promises
    requires t.proposals == s.proposals && t.acks == s.acks && s.attempts <= t.attempts
    requires s.commits <= t.commits && t.commitAcks == s.commitAcks && s.outcomes <= t.outcomes
    requires forall m <- t.commits :: m in s.commits || CommitChosen(s, m)
    requires forall o <- t.outcomes :: o in s.outcomes || CommitMessage(o.slot, o.value) in t.commits
    requires AttemptsNumbered(t)
    ensures Inv(t)
  {
    hide ReplicaSound, PromisesSworn, Founded, AcksProposed, Forward, CommitsChosen;
    hide Respects, Credible, CommitChosen, HasProposal, ReportBacked;
    UntouchedReplicas(s, t);
    ProposalsStayFounded(s, t);
    Assemble(s, t);
  }

  /** `nextBallot` never repeats a ballot. */
  lemma BallotIsNew(s: System, node: string, slot: nat, want: Value, cause: Cause)
    requires AttemptsNumbered(s)
    ensures forall a <- s.attempts :: a.ballot != Ballot(CounterOf(s, node) + 1, node)
    ensures AttemptsNumbered(AfterPrepare(s, node, slot, want, cause))
  {
  }

  lemma PrepareStep(s: System, node: string, slot: nat, want: Value, cause: Cause, t: System)
    requires Inv(s) && t == AfterPrepare(s, node, slot, want, cause)
    ensures Inv(t)
  {
    BallotIsNew(s, node, slot, want, cause);
    QuietStep(s, t);
  }

  lemma SendCommitStep(s: System, i: nat, t: System)
    requires Inv(s) && ChosenAt(s, i)
    requires t == s.(commits := s.commits + {CommitMessage(s.proposals[i].slot, s.proposals[i].value)})
    ensures Inv(t)
  {
    hide CommitChosen, ChosenAt, ReplicasSound, PromisesSworn, ProposalsFounded, AcksProposed, Forward, CommitsChosen;
    QuorumIsChosen(s, i);
    QuietStep(s, t);
  }

  lemma QuorumIsChosen(s: System, i: nat)
    requires ChosenAt(s, i)
    ensures CommitChosen(s, CommitMessage(s.proposals[i].slot, s.proposals[i].value))
  {
  }

  lemma CountersRise(s: System, t: System)
    requires AttemptsNumbered(s) && t.attempts == s.attempts
    requires forall node :: CounterOf(s, node) <= CounterOf(t, node)
    ensures AttemptsNumbered(t)
  {
  }

  lemma OtherStep(s: System, t: System)
    requires Inv(s)
    requires t == s.(counters := t.counters, outcomes := t.outcomes, queries := t.queries, statuses := t.statuses, plans := t.plans)
    requires forall node :: CounterOf(s, node) <= CounterOf(t, node)
    requires s.outcomes <= t.outcomes
    requires forall o <- t.outcomes :: o in s.outcomes || CommitMessage(o.slot, o.value) in s.commits
    ensures Inv(t)
  {
    hide ReplicasSound, PromisesSworn, ProposalsFounded, AcksProposed, Forward, CommitsChosen, AttemptsNumbered, CommitChosen;
    CountersRise(s, t);
    QuietStep(s, t);
  }

  // ----- steps of one replica -----

  /** The replicas other than `r`, when nothing new is acknowledged in their name. */
  lemma OthersStaySound(s: System, t: System, r: nat)
    requires ReplicasSound(s) && Grows(s, t) && |t.replicas| == REPLICAS
    requires forall q :: 0 <= q < REPLICAS && q != r ==> t.replicas[q] == s.replicas[q]
    requires forall a <- t.acks :: a in s.acks || a.from == r
    requires r < REPLICAS && ReplicaSound(t, r, t.replicas[r])
    ensures ReplicasSound(t)
  {
    forall q | 0 <= q < REPLICAS ensures ReplicaSound(t, q, t.replicas[q]) {
      if q != r { ReplicaSoundGrows(s, t, q, s.replicas[q]); }
    }
  }

  /** One replica changed and acknowledged no proposal. */
  lemma ReplicaStep(s: System, t: System, r: nat)
    requires Inv(s) && r < REPLICAS
    requires |t.replicas| == REPLICAS && forall q :: 0 <= q < REPLICAS && q != r ==> t.replicas[q] == s.replicas[q]
    requires t.acks == s.acks && t.proposals == s.proposals && s.prepared <= t.prepared && t.attempts == s.attempts
    requires t.counters == s.counters
    requires ReplicaSound(t, r, t.replicas[r]) && KeepsPromises(s.replicas[r], t.replicas[r])
    requires forall p <- t.promises :: p in s.promises || Credible(t, p)
    requires t.commits == s.commits && t.outcomes == s.outcomes
    requires forall a <- t.commitAcks :: a in s.commitAcks || CommitMessage(a.slot, a.value) in s.commits
    ensures Inv(t)
  {
    forall q | 0 <= q < REPLICAS && q != r { KeepsOwnPromises(s.replicas[q]); }
    hide ReplicaSound, PromisesSworn, Founded, AcksProposed, Forward, CommitsChosen, AttemptsNumbered, KeepsPromises;
    hide Credible, CommitChosen, HasProposal, ReportBacked, Binding;
    OthersStaySound(s, t, r);
    ProposalsStayFounded(s, t);
    CountersRise(s, t);
    Assemble(s, t);
  }

  lemma RestartStep(s: System, r: nat, k: nat, synced: nat)
    requires Inv(s) && r < |s.replicas| && CanRestart(s.replicas[r], k, synced)
    ensures Inv(s.(replicas := s.replicas[r := Restart(s.replicas[r], k, synced)]))
  {
    var rep := s.replicas[r];
    var after := Restart(rep, k, synced);
    var t := s.(replicas := s.replicas[r := after]);
    forall m | Possible(after, m) ensures Possible(rep, m) { RestartPossible(rep, k, synced, m); }
    forall m, n | Possible(after, m) ensures SlotSound(t, r, n, Get(m, n)) {
      SlotSoundGrows(s, t, r, n, Get(m, n));
    }
    ReplicaStep(s, t, r);
  }

  /** A sound replica stays sound under a record that keeps every slot of its number sound. */
  lemma RecordKeepsSound(s: System, t: System, r: nat, before: Replica, after: Replica, rec: Record)
    requires Grows(s, t) && t.acks == s.acks && ReplicaSound(s, r, before)
    requires after.synced <= |after.log| && OneRecordLater(before, after, rec)
    requires forall x :: SlotSound(t, r, rec.slot, x) ==> SlotSound(t, r, rec.slot, ApplyTo(x, rec))
    ensures ReplicaSound(t, r, after)
  {
    forall m, n | Possible(after, m) ensures SlotSound(t, r, n, Get(m, n)) {
      if Possible(before, m) {
        SlotSoundGrows(s, t, r, n, Get(m, n));
      } else {
        var x :| Possible(before, x) && m == Apply(x, rec);
        SlotSoundGrows(s, t, r, n, Get(x, n));
      }
    }
  }

  lemma CommitRecordSound(s: System, r: nat, n: nat, x: Slot, v: Value)
    requires SlotSound(s, r, n, x) && CommitChosen(s, CommitMessage(n, v))
    ensures SlotSound(s, r, n, ApplyTo(x, CommitRecord(n, v)))
  {
    var j: nat :| ChosenAt(s, j) && s.proposals[j].slot == n && s.proposals[j].value == v;
    if x.hasAccepted {
      assert Explains(s, j, n, x.accepted, v);
    }
  }

  lemma CommitDelivered(s: System, t: System, r: nat, m: CommitMessage, fault: Fault)
    requires r < |s.replicas| && ReplicaSound(s, r, s.replicas[r]) && CommitChosen(s, m)
    requires t == AfterCommit(s, r, m, Commit(s.replicas[r], m.slot, m.value, fault))
    ensures ReplicaSound(t, r, t.replicas[r]) && KeepsPromises(s.replicas[r], t.replicas[r])
  {
    var rep, after := s.replicas[r], t.replicas[r];
    var rec := CommitRecord(m.slot, m.value);
    AppendIsOneRecordLater(rep, rec, fault);
    RecordKeepsPromises(rep, after, rec);
    CommitChosenGrows(s, t, m);
    forall x | SlotSound(t, r, m.slot, x) ensures SlotSound(t, r, m.slot, ApplyTo(x, rec)) {
      CommitRecordSound(t, r, m.slot, x, m.value);
    }
    RecordKeepsSound(s, t, r, rep, after, rec);
  }

  lemma DeliverCommitStep(s: System, r: nat, m: CommitMessage, fault: Fault, t: System)
    requires Inv(s) && r < |s.replicas| && m in s.commits
    requires t == AfterCommit(s, r, m, Commit(s.replicas[r], m.slot, m.value, fault))
    ensures Inv(t)
  {
    assert CommitChosen(s, m) && ReplicaSound(s, r, s.replicas[r]);
    CommitDelivered(s, t, r, m, fault);
    ReplicaStep(s, t, r);
  }

  lemma PromiseRecordSound(s: System, r: nat, n: nat, x: Slot, b: Ballot)
    requires SlotSound(s, r, n, x) && Prepared(r, n, b) in s.prepared
    ensures SlotSound(s, r, n, ApplyTo(x, PromiseRecord(n, b)))
  {
    StrictTotalOrder();
  }

  /** The first promise for a ballot is sworn; a repeated one can only follow that ballot's own proposal. */
  lemma NewPromiseCredible(s: System, t: System, r: nat, a: Attempt, fault: Fault)
    requires r < |s.replicas| && ReplicaSound(s, r, s.replicas[r]) && r < REPLICAS && a.ballot.counter > 0
    requires Prepared(r, a.slot, a.ballot) !in s.prepared
    requires t == AfterPromise(s, r, a, Promise(s.replicas[r], a.slot, a.ballot, fault))
    requires Promise(s.replicas[r], a.slot, a.ballot, fault).ok
    ensures Credible(t, ReplyOf(r, a, Promise(s.replicas[r], a.slot, a.ballot, fault).reply))
  {
    StrictTotalOrder();
    var rep := s.replicas[r];
    var x := Get(rep.mem, a.slot);
    var p := Promise(rep, a.slot, a.ballot, fault);
    assert Possible(rep, rep.mem) && SlotSound(s, r, a.slot, x);
    if x.promised == a.ballot {
      HasProposalGrows(s, t, a.slot, a.ballot);
    } else {
      forall m | Possible(p.after, m) ensures !Less(Get(m, a.slot).promised, a.ballot) {
        AppendPossible(rep, PromiseRecord(a.slot, a.ballot), fault, m);
      }
      if x.hasAccepted { BackedGrows(s, t, a.slot, x.accepted, x.value, |s.proposals|); }
      assert Sworn(t, ReplyOf(r, a, p.reply), |t.proposals|);
    }
  }

  lemma PrepareDelivered(s: System, t: System, r: nat, a: Attempt, fault: Fault)
    requires r < |s.replicas| && ReplicaSound(s, r, s.replicas[r])
    requires t == AfterPromise(s, r, a, Promise(s.replicas[r], a.slot, a.ballot, fault))
    ensures ReplicaSound(t, r, t.replicas[r]) && KeepsPromises(s.replicas[r], t.replicas[r])
  {
    var rep, after := s.replicas[r], t.replicas[r];
    var rec := PromiseRecord(a.slot, a.ballot);
    AppendIsOneRecordLater(rep, rec, fault);
    RecordKeepsPromises(rep, after, rec);
    forall x | SlotSound(t, r, a.slot, x) ensures SlotSound(t, r, a.slot, ApplyTo(x, rec)) {
      PromiseRecordSound(t, r, a.slot, x, a.ballot);
    }
    RecordKeepsSound(s, t, r, rep, after, rec);
  }

  lemma DeliverPrepareStep(s: System, r: nat, a: Attempt, fault: Fault, t: System)
    requires Inv(s) && r < |s.replicas| && a in s.attempts && Prepared(r, a.slot, a.ballot) !in s.prepared
    requires t == AfterPromise(s, r, a, Promise(s.replicas[r], a.slot, a.ballot, fault))
    ensures Inv(t)
  {
    PrepareDelivered(s, t, r, a, fault);
    if Promise(s.replicas[r], a.slot, a.ballot, fault).ok { NewPromiseCredible(s, t, r, a, fault); }
    ReplicaStep(s, t, r);
  }

  // ----- a new proposal -----

  lemma ProposeStep(s: System, a: Attempt, ok: seq<Reply>, t: System)
    requires Inv(s) && CanPropose(s, a, ok)
    requires t == s.(proposals := s.proposals + [Proposal(a.slot, a.ballot, Adopt(ok, ZERO, a.want), ok)])
    ensures Inv(t)
  {
    hide ReplicaSound, Founded, AcksProposed, Forward, CommitsChosen, Sworn, AttemptsNumbered;
    hide Respects, Credible, CommitChosen, HasProposal, ReportBacked;
    UntouchedReplicas(s, t);
    ProposalFounded(s, t, a, ok);
    CountersRise(s, t);
    Assemble(s, t);
  }

  lemma ProposalFounded(s: System, t: System, a: Attempt, ok: seq<Reply>)
    requires ReplicasSound(s) && PromisesSworn(s) && ProposalsFounded(s) && AttemptsNumbered(s) && CanPropose(s, a, ok)
    requires t == s.(proposals := s.proposals + [Proposal(a.slot, a.ballot, Adopt(ok, ZERO, a.want), ok)])
    ensures ProposalsFounded(t)
    ensures forall q <- ok :: ReportBacked(s, q, |s.proposals|)
  {
    var n := |s.proposals|;
    var p := t.proposals[n];
    forall q | q in ok ensures Sworn(t, q, n) {
      assert Credible(s, q);
      SwornGrows(s, t, q, n);
    }
    assert FromAttempt(t, p, a);
    forall i | 0 <= i < |t.proposals| ensures Founded(t, i, t.proposals[i]) {
      if i < n { FoundedGrows(s, t, i, s.proposals[i]); }
    }
    forall i, j | 0 <= i < j < |t.proposals| && t.proposals[i].slot == t.proposals[j].slot
      ensures t.proposals[i].ballot != t.proposals[j].ballot
    {
      if j == n { assert !HasProposal(s, a.slot, a.ballot); }
    }
  }

  // ----- a new acknowledgement -----

  lemma AcceptRecordSound(s: System, r: nat, n: nat, x: Slot, i: nat)
    requires i < |s.proposals| && s.proposals[i].slot == n && s.proposals[i].ballot.counter > 0
    requires forall b :: Ack(r, n, b) in s.acks ==> !Less(s.proposals[i].ballot, b)
    ensures SlotSound(s, r, n, ApplyTo(x, AcceptRecord(n, s.proposals[i].ballot, s.proposals[i].value)))
  {
    StrictTotalOrder();
    var p := s.proposals[i];
    assert IsAt(s, i, n, p.ballot);
    assert Explains(s, i, n, p.ballot, p.value);
  }

  /** What an acceptor shows after appending an acceptance; `ok` when it also acknowledged it. */
  lemma AcceptKeepsSound(s: System, t: System, r: nat, i: nat, fault: Fault)
    requires r < |s.replicas| && ReplicaSound(s, r, s.replicas[r]) && i < |s.proposals| && s.proposals[i].ballot.counter > 0
    requires !Less(s.proposals[i].ballot, Get(s.replicas[r].mem, s.proposals[i].slot).promised)
    requires t.proposals == s.proposals && t.prepared == s.prepared && t.attempts == s.attempts
    requires t.acks == if fault == NoFault then s.acks + {Ack(r, s.proposals[i].slot, s.proposals[i].ballot)} else s.acks
    ensures ReplicaSound(t, r, Append(s.replicas[r], AcceptRecord(s.proposals[i].slot, s.proposals[i].ballot, s.proposals[i].value), fault).after)
  {
    StrictTotalOrder();
    var rep, p := s.replicas[r], s.proposals[i];
    var rec := AcceptRecord(p.slot, p.ballot, p.value);
    assert Possible(rep, rep.mem) && SlotSound(s, r, p.slot, Get(rep.mem, p.slot));
    forall m, n | Possible(Append(rep, rec, fault).after, m) ensures SlotSound(t, r, n, Get(m, n)) {
      AppendPossible(rep, rec, fault, m);
      if Possible(rep, m) && (fault != NoFault || n != p.slot) {
        SlotSoundGrows(s, t, r, n, Get(m, n));
      } else {
        var x :| Possible(rep, x) && m == Apply(x, rec);
        if n == p.slot { AcceptRecordSound(t, r, n, Get(x, n), i); } else { SlotSoundGrows(s, t, r, n, Get(x, n)); }
      }
    }
  }

  /** An acknowledgement never goes below a binding promise: the acceptor's memory would have refused it. */
  lemma AckRespects(s: System, t: System, r: nat, i: nat, after: Replica)
    requires |s.replicas| == REPLICAS && r < REPLICAS && i < |s.proposals|
    requires !Less(s.proposals[i].ballot, Get(s.replicas[r].mem, s.proposals[i].slot).promised)
    requires KeepsPromises(s.replicas[r], after) && t.replicas == s.replicas[r := after]
    requires t.acks <= s.acks + {Ack(r, s.proposals[i].slot, s.proposals[i].ballot)}
    ensures Respects(s, t)
  {
    StrictTotalOrder();
    assert Possible(s.replicas[r], s.replicas[r].mem);
  }

  lemma DeliverAcceptStep(s: System, r: nat, i: nat, fault: Fault)
    requires Inv(s) && r < |s.replicas| && i < |s.proposals|
    ensures Inv(AfterAccept(s, r, s.proposals[i],
                            Accept(s.replicas[r], s.proposals[i].slot, s.proposals[i].ballot, s.proposals[i].value, fault)))
  {
    var rep, p := s.replicas[r], s.proposals[i];
    var x := Get(rep.mem, p.slot);
    var a := Accept(rep, p.slot, p.ballot, p.value, fault);
    var t := AfterAccept(s, r, p, a);
    var rec := AcceptRecord(p.slot, p.ballot, p.value);
    assert Founded(s, i, p) && ReplicaSound(s, r, rep);
    if Less(p.ballot, x.promised) || (x.hasAccepted && x.accepted == p.ballot && x.value != p.value) {
      assert t == s;
    } else {
      AppendIsOneRecordLater(rep, rec, fault);
      AcceptKeepsPromises(rep, a.after, rec);
      AcceptKeepsSound(s, t, r, i, fault);
      AckRespects(s, t, r, i, a.after);
      NewAckProposed(s, t, r, i);
      AcceptedStep(s, t, r);
    }
  }

  lemma AcceptedStep(s: System, t: System, r: nat)
    requires Inv(s) && r < REPLICAS
    requires t == s.(replicas := t.replicas, acks := t.acks)
    requires Respects(s, t) && forall q :: 0 <= q < REPLICAS && q != r ==> t.replicas[q] == s.replicas[q]
    requires s.acks <= t.acks && forall a <- t.acks :: a in s.acks || (a.from == r && HasProposal(t, a.slot, a.ballot))
    requires |t.replicas| == REPLICAS && ReplicaSound(t, r, t.replicas[r])
    ensures Inv(t)
  {
    hide ReplicaSound, PromisesSworn, Founded, AcksProposed, Forward, CommitsChosen, AttemptsNumbered;
    hide Respects, Credible, CommitChosen, HasProposal, ReportBacked;
    OthersStaySound(s, t, r);
    ProposalsStayFounded(s, t);
    CountersRise(s, t);
    Assemble(s, t);
  }

  lemma NewAckProposed(s: System, t: System, r: nat, i: nat)
    requires r < REPLICAS && i < |s.proposals| && t.proposals == s.proposals
    requires t.acks <= s.acks + {Ack(r, s.proposals[i].slot, s.proposals[i].ballot)}
    ensures forall a <- t.acks :: a in s.acks || (a.from == r && HasProposal(t, a.slot, a.ballot))
  {
    forall a | a in t.acks && a !in s.acks ensures HasProposal(t, a.slot, a.ballot) {
      assert IsAt(t, i, a.slot, a.ballot);
    }
  }

  // ----- all steps -----

  lemma StepKeepsInv(s: System, step: Step, t: System)
    requires Inv(s) && Next(s, step, t)
    ensures Inv(t)
  {
    hide Inv, Promise, Accept, Commit, CanPrepare, CanPropose, CanPlan, CanRestart, ChosenAt, ChosenSlots, IsSnapshot, IsEndOfLog;
    match step
    case Prepare(node, slot, want, cause) => PrepareStep(s, node, slot, want, cause, t);
    case DeliverPrepare(r, a, fault) => DeliverPrepareStep(s, r, a, fault, t);
    case Propose(a, ok) => ProposeStep(s, a, ok, t);
    case DeliverAccept(r, i, fault) => DeliverAcceptStep(s, r, i, fault);
    case SendCommit(i) => SendCommitStep(s, i, t);
    case DeliverCommit(r, m, fault) => DeliverCommitStep(s, r, m, fault, t);
    case RestartReplica(r, k, synced) => RestartStep(s, r, k, synced);
    case _ => OtherStep(s, t);
  }

  lemma InitialInv()
    ensures Inv(INITIAL)
  {
    StrictTotalOrder();
  }

  lemma {:induction false} RunKeepsInv(run: seq<System>, steps: seq<Step>, i: nat)
    requires IsRun(run, steps) && i < |run|
    ensures Inv(run[i])
  {
    if i == 0 {
      InitialInv();
    } else {
      RunKeepsInv(run, steps, i - 1);
      StepKeepsInv(run[i - 1], steps[i - 1], run[i]);
    }
  }
}
