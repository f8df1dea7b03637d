/** What every reachable system satisfies, and why a chosen value is never contradicted. */
module PaxosInvariant {
  import opened PaxosBallots
  import opened PaxosStorage
  import opened PaxosProtocol

  /** Proposal `j` is the one made for this slot and ballot. */
  predicate IsAt(s: System, j: int, slot: nat, b: Ballot) {
    0 <= j < |s.proposals| && s.proposals[j].slot == slot && s.proposals[j].ballot == b
  }

  /** Proposal `j` accounts for a value reported together with ballot `b`: it is what was proposed at `b`,
      or a chosen value that a commit wrote over it. */
  predicate Explains(s: System, j: int, slot: nat, b: Ballot, v: Value) {
    && 0 <= j < |s.proposals|
    && s.proposals[j].slot == slot && s.proposals[j].value == v
    && (s.proposals[j].ballot == b || Chosen(s, slot, s.proposals[j].ballot))
  }

  /** An accepted ballot and value that some of the first `upto` proposals account for. */
  ghost predicate Backed(s: System, slot: nat, b: Ballot, v: Value, upto: nat) {
    && (exists j :: j < upto && IsAt(s, j, slot, b))
    && (exists j :: j < upto && Explains(s, j, slot, b, v))
  }

  ghost predicate SlotSound(s: System, r: nat, n: nat, x: Slot) {
    && (x.hasAccepted ==>
          x.accepted.counter > 0 && !Less(x.promised, x.accepted) && Backed(s, n, x.accepted, x.value, |s.proposals|))
    && (!x.hasAccepted ==> x.accepted == ZERO)
    && (forall b :: Ack(r, n, b) in s.acks ==> !Less(x.promised, b) && x.hasAccepted && !Less(x.accepted, b))
    && (x.promised != ZERO ==> Prepared(r, n, x.promised) in s.prepared || HasProposal(s, n, x.promised))
  }

  ghost predicate ReplicaSound(s: System, r: nat, rep: Replica) {
    && rep.synced <= |rep.log|
    && forall m, n :: Possible(rep, m) ==> SlotSound(s, r, n, Get(m, n))
  }

  ghost predicate ReplicasSound(s: System) {
    && |s.replicas| == REPLICAS
    && forall r :: 0 <= r < REPLICAS ==> ReplicaSound(s, r, s.replicas[r])
  }

  /** A promise reports a ballot no lower than any lower ballot its sender ever acknowledged. */
  ghost predicate CoversAcks(s: System, p: Reply) {
    forall b :: Ack(p.from, p.slot, b) in s.acks && Less(b, p.ballot) ==>
                  p.accepted.counter > 0 && !Less(p.accepted, b)
  }

  ghost predicate ReportBacked(s: System, p: Reply, upto: nat) {
    p.accepted.counter > 0 ==>
      Less(p.accepted, p.ballot) && Backed(s, p.slot, p.accepted, p.value, upto)
  }

  /** Nothing this replica may ever show has a promise below `b`. */
  ghost predicate Holds(rep: Replica, n: nat, b: Ballot) {
    forall m :: Possible(rep, m) ==> !Less(Get(m, n).promised, b)
  }

  ghost predicate Binding(s: System, p: Reply) {
    p.from < |s.replicas| && Holds(s.replicas[p.from], p.slot, p.ballot)
  }

  ghost predicate Sworn(s: System, p: Reply, upto: nat) {
    CoversAcks(s, p) && ReportBacked(s, p, upto) && Binding(s, p)
  }

  /** A promise is sworn unless it came after its ballot had already proposed. */
  ghost predicate PromisesSworn(s: System) {
    forall p <- s.promises :: p.from < REPLICAS
                              && (HasProposal(s, p.slot, p.ballot) || Sworn(s, p, |s.proposals|))
  }

  predicate FromAttempt(s: System, p: Proposal, a: Attempt) {
    a in s.attempts && a.slot == p.slot && a.ballot == p.ballot && p.value == Adopt(p.basis, ZERO, a.want)
  }

  ghost predicate Founded(s: System, i: nat, p: Proposal) {
    && |p.basis| >= QUORUM && DistinctSenders(p.basis)
    && (forall q <- p.basis :: q.from < REPLICAS && q.slot == p.slot && q.ballot == p.ballot && Sworn(s, q, i))
    && (exists a :: FromAttempt(s, p, a))
    && p.ballot.counter > 0
  }

  ghost predicate ProposalsFounded(s: System) {
    && (forall i :: 0 <= i < |s.proposals| ==> Founded(s, i, s.proposals[i]))
    && (forall i, j :: 0 <= i < j < |s.proposals| && s.proposals[i].slot == s.proposals[j].slot ==>
                         s.proposals[i].ballot != s.proposals[j].ballot)
  }

  ghost predicate AcksProposed(s: System) {
    forall a <- s.acks :: a.from < REPLICAS && HasProposal(s, a.slot, a.ballot)
  }

  /** Once a ballot is chosen, every higher ballot proposes the same value. */
  ghost predicate Forward(s: System) {
    forall i, j :: 0 <= i < |s.proposals| && 0 <= j < |s.proposals|
                   && s.proposals[i].slot == s.proposals[j].slot
                   && Less(s.proposals[j].ballot, s.proposals[i].ballot) && ChosenAt(s, j) ==>
                     s.proposals[i].value == s.proposals[j].value
  }

  ghost predicate CommitsChosen(s: System) {
    && (forall m <- s.commits :: exists j: nat :: ChosenAt(s, j) && s.proposals[j].slot == m.slot && s.proposals[j].value == m.value)
    && (forall a <- s.commitAcks :: CommitMessage(a.slot, a.value) in s.commits)
    && (forall o <- s.outcomes :: CommitMessage(o.slot, o.value) in s.commits)
  }

  ghost predicate AttemptsNumbered(s: System) {
    && (forall a <- s.attempts :: 0 < a.ballot.counter <= CounterOf(s, a.ballot.node))
    && (forall a, b :: a in s.attempts && b in s.attempts && a.ballot == b.ballot ==> a == b)
  }

  ghost predicate Inv(s: System) {
    && ReplicasSound(s) && PromisesSworn(s) && ProposalsFounded(s) && AcksProposed(s)
    && Forward(s) && CommitsChosen(s) && AttemptsNumbered(s)
  }

  // ----- growth -----

  /** `t` has every acknowledgement, proposal, delivered prepare and attempt of `s`. */
  predicate Grows(s: System, t: System) {
    && s.acks <= t.acks && s.proposals <= t.proposals && s.prepared <= t.prepared && s.attempts <= t.attempts
  }

  lemma BackedGrows(s: System, t: System, slot: nat, b: Ballot, v: Value, upto: nat)
    requires Grows(s, t) && Backed(s, slot, b, v, upto)
    ensures forall n :: upto <= n ==> Backed(t, slot, b, v, n)
  {
    var j :| j < upto && IsAt(s, j, slot, b);
    var k :| k < upto && Explains(s, k, slot, b, v);
    assert IsAt(t, j, slot, b);
    if s.proposals[k].ballot != b { ChosenGrows(s, t, slot, s.proposals[k].ballot); }
    assert Explains(t, k, slot, b, v);
  }

  lemma ChosenGrows(s: System, t: System, slot: nat, b: Ballot)
    requires s.acks <= t.acks && Chosen(s, slot, b)
    ensures Chosen(t, slot, b)
  {
    var r, q :| 0 <= r < REPLICAS && 0 <= q < REPLICAS && r != q && Ack(r, slot, b) in s.acks && Ack(q, slot, b) in s.acks;
    assert Ack(r, slot, b) in t.acks && Ack(q, slot, b) in t.acks;
  }

  lemma HasProposalGrows(s: System, t: System, slot: nat, b: Ballot)
    requires Grows(s, t) && HasProposal(s, slot, b)
    ensures HasProposal(t, slot, b)
  {
    var i :| 0 <= i < |s.proposals| && s.proposals[i].slot == slot && s.proposals[i].ballot == b;
    assert t.proposals[i] == s.proposals[i];
  }

  /** Slot soundness survives growth as long as this replica acknowledged nothing new. */
  lemma SlotSoundGrows(s: System, t: System, r: nat, n: nat, x: Slot)
    requires Grows(s, t) && SlotSound(s, r, n, x)
    requires forall b :: Ack(r, n, b) in t.acks ==> Ack(r, n, b) in s.acks
    ensures SlotSound(t, r, n, x)
  {
    if x.hasAccepted { BackedGrows(s, t, n, x.accepted, x.value, |s.proposals|); }
    if x.promised != ZERO && Prepared(r, n, x.promised) !in s.prepared { HasProposalGrows(s, t, n, x.promised); }
  }

  lemma ReplicaSoundGrows(s: System, t: System, r: nat, rep: Replica)
    requires Grows(s, t) && ReplicaSound(s, r, rep)
    requires forall n, b :: Ack(r, n, b) in t.acks ==> Ack(r, n, b) in s.acks
    ensures ReplicaSound(t, r, rep)
  {
    forall m, n | Possible(rep, m) ensures SlotSound(t, r, n, Get(m, n)) {
      SlotSoundGrows(s, t, r, n, Get(m, n));
    }
  }

  // ----- the choice of a value -----

  lemma {:induction false} AdoptPicksHighest(ok: seq<Reply>, high: Ballot, chosen: Value)
    requires high == ZERO || high.counter > 0
    ensures (Adopt(ok, high, chosen) == chosen
             && forall p <- ok :: p.accepted.counter > 0 ==> high != ZERO && !Less(high, p.accepted))
            || exists p <- ok :: p.accepted.counter > 0 && Adopt(ok, high, chosen) == p.value && !Less(p.accepted, high)
                                 && forall q <- ok :: !Less(p.accepted, q.accepted)
  {
    StrictTotalOrder();
    if ok != [] {
      var p0 := ok[0];
      assert ok == [p0] + ok[1..];
      if p0.accepted.counter > 0 && (Less(high, p0.accepted) || high == ZERO) {
        AdoptPicksHighest(ok[1..], p0.accepted, p0.value);
      } else {
        AdoptPicksHighest(ok[1..], high, chosen);
      }
    }
  }

  /** Any two of three replicas share one with any two others: some promise of the basis comes from an acknowledger. */
  lemma Intersect(s: System, p: Proposal, slot: nat, b: Ballot) returns (q: Reply)
    requires |p.basis| >= QUORUM && DistinctSenders(p.basis) && forall x <- p.basis :: x.from < REPLICAS
    requires Chosen(s, slot, b)
    ensures q in p.basis && Ack(q.from, slot, b) in s.acks
  {
    var r, w :| 0 <= r < REPLICAS && 0 <= w < REPLICAS && r != w && Ack(r, slot, b) in s.acks && Ack(w, slot, b) in s.acks;
    var f0, f1 := p.basis[0], p.basis[1];
    assert f0.from != f1.from;
    q := if f0.from == r || f0.from == w then f0 else f1;
  }

  /** The value of proposal `i` above the chosen ballot `b` of its slot was reported by some promise, at a ballot
      `top` not below `b`, and an earlier proposal `h` accounts for that report. */
  lemma HighestReport(s: System, t: System, i: nat, p: Proposal, b: Ballot) returns (top: Ballot, h: nat)
    requires Founded(t, i, p) && Chosen(t, p.slot, b) && Less(b, p.ballot)
    requires forall q <- p.basis :: ReportBacked(s, q, i)
    ensures h < i && Explains(s, h, p.slot, top, p.value) && !Less(top, b)
  {
    hide Chosen, Adopt, Less;
    var q := Intersect(t, p, p.slot, b);
    assert CoversAcks(t, q);
    var best := ReportAdopted(t, i, p, q);
    assert ReportBacked(s, best, i);
    top := best.accepted;
    AtLeastTransitive(top, q.accepted, b);
    h :| h < i && Explains(s, h, p.slot, top, p.value);
  }

  /** Once some promise of the basis reports an acceptance, the value comes from the highest report. */
  lemma ReportAdopted(t: System, i: nat, p: Proposal, q: Reply) returns (best: Reply)
    requires Founded(t, i, p) && q in p.basis && q.accepted.counter > 0
    ensures best in p.basis && best.accepted.counter > 0 && p.value == best.value
    ensures forall x <- p.basis :: !Less(best.accepted, x.accepted)
  {
    hide Adopt, Less, Sworn;
    var a :| FromAttempt(t, p, a);
    AdoptPicksHighest(p.basis, ZERO, a.want);
    best :| best in p.basis && best.accepted.counter > 0 && p.value == best.value
            && forall x <- p.basis :: !Less(best.accepted, x.accepted);
  }

  /** The heart of the matter. In `t`, which grew out of `s` by at most one proposal or one acknowledgement,
      proposal `i` above the chosen ballot of proposal `j` carries the value of `j`. The induction follows the
      order in which proposals were made, because a report may carry a value chosen at a ballot above `i`'s. */
  lemma {:induction false} FollowsChosen(s: System, t: System, j: nat, i: nat)
    requires s.proposals <= t.proposals && |t.proposals| <= |s.proposals| + 1
    requires Forward(s) && ProposalsFounded(t)
    requires forall k, q :: 0 <= k < |t.proposals| && q in t.proposals[k].basis ==> ReportBacked(s, q, k)
    requires j < |s.proposals| && i < |t.proposals| && ChosenAt(t, j)
    requires t.proposals[i].slot == t.proposals[j].slot && Less(t.proposals[j].ballot, t.proposals[i].ballot)
    ensures t.proposals[i].value == t.proposals[j].value
    decreases i
  {
    var pi, pj := t.proposals[i], t.proposals[j];
    var top, h := HighestReport(s, t, i, pi, pj.ballot);
    var ph := t.proposals[h];
    assert ph == s.proposals[h];
    Compare(ph.ballot, pj.ballot);
    if Less(pj.ballot, ph.ballot) {
      FollowsChosen(s, t, j, h);
    } else if ph.ballot == pj.ballot {
      assert h == j;
    } else {
      assert ChosenAt(s, h);
    }
  }
}
