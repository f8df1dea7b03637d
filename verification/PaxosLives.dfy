/** Whole lives of an acceptor: any sequence of promises, acceptances, commits, failures and crashes, and exactly which
    acknowledgements no later crash can undo. */
module PaxosLives {
  import opened Options
  import opened PaxosBallots
  import opened PaxosStorage

  datatype Operation =
    | PromiseOp(slot: nat, ballot: Ballot, fault: Fault)
    | AcceptOp(slot: nat, ballot: Ballot, value: Value, fault: Fault)
    | CommitOp(slot: nat, value: Value, fault: Fault)

  function Perform(rep: Replica, op: Operation): Appended {
    match op
    case PromiseOp(n, b, fault) => var p := Promise(rep, n, b, fault); Appended(p.after, p.ok)
    case AcceptOp(n, b, v, fault) => Accept(rep, n, b, v, fault)
    case CommitOp(n, v, fault) => Commit(rep, n, v, fault)
  }

  function RecordOf(op: Operation): Record {
    match op
    case PromiseOp(n, b, _) => PromiseRecord(n, b)
    case AcceptOp(n, b, v, _) => AcceptRecord(n, b, v)
    case CommitOp(n, v, _) => CommitRecord(n, v)
  }

  /** Whether the operation gets as far as the log. */
  predicate Writes(rep: Replica, op: Operation) {
    var x := Get(rep.mem, op.slot);
    match op
    case PromiseOp(_, b, _) => !Less(b, x.promised) && x.promised != b
    case AcceptOp(_, b, v, _) => !Less(b, x.promised) && !(x.hasAccepted && x.accepted == b && x.value != v)
    case CommitOp(_, v, _) => !(x.committed && x.value != v)
  }

  lemma PerformIsAppend(rep: Replica, op: Operation)
    ensures Writes(rep, op) ==> Perform(rep, op) == Append(rep, RecordOf(op), op.fault)
    ensures !Writes(rep, op) ==> Perform(rep, op).after == rep
    ensures !Writes(rep, op) ==> (Perform(rep, op).ok <==> op.PromiseOp? && Get(rep.mem, op.slot).promised == op.ballot)
  {
    Compare(ZERO, ZERO);
    if op.PromiseOp? { Compare(op.ballot, op.ballot); }
  }

  /** What an acknowledgement told its caller, in a slot table seen later. */
  predicate Kept(m: Slots, op: Operation) {
    var x := Get(m, op.slot);
    match op
    case PromiseOp(_, b, _) => !Less(x.promised, b)
    case AcceptOp(_, b, _, _) => x.hasAccepted && !Less(x.accepted, b) && !Less(x.promised, b)
    case CommitOp(_, _, _) => x.committed
  }

  /** Nothing the acceptor may show lacks it. */
  ghost predicate Secured(rep: Replica, op: Operation) {
    forall m :: Possible(rep, m) ==> Kept(m, op)
  }

  // ----- lives -----

  /** An operation, or a crash that leaves the first `k` lines of the file, `synced` of them for good. */
  datatype Event = Did(op: Operation) | Crashed(k: nat, synced: nat)

  /** A crash the disk does not allow, or after which the file cannot be read, does not happen. */
  function After(rep: Replica, e: Event): Replica {
    match e
    case Did(op) => Perform(rep, op).after
    case Crashed(k, synced) => if CanRestart(rep, k, synced) then Restart(rep, k, synced) else rep
  }

  function Onward(rep: Replica, events: seq<Event>): Replica {
    if events == [] then rep else After(Onward(rep, events[..|events| - 1]), events[|events| - 1])
  }

  function Life(events: seq<Event>): Replica {
    Onward(FRESH, events)
  }

  /** Whatever happens from here on, what was acknowledged stands. */
  ghost predicate Survives(rep: Replica, op: Operation) {
    forall more: seq<Event> :: Kept(Onward(rep, more).mem, op)
  }

  // ----- what is secured survives, and nothing else -----

  lemma KeptByRecord(x: Slots, rec: Record, op: Operation)
    requires Kept(x, op)
    requires rec.AcceptRecord? && !op.CommitOp? && rec.slot == op.slot ==> !Less(rec.ballot, op.ballot)
    ensures Kept(Apply(x, rec), op)
  {
    if rec.PromiseRecord? && rec.slot == op.slot && !op.CommitOp? {
      var y := Get(x, op.slot);
      Compare(y.promised, rec.ballot);
      if Less(y.promised, rec.ballot) { AtLeastTransitive(rec.ballot, y.promised, op.ballot); }
    }
  }

  /** An operation goes by the promise in memory, so its record takes back nothing that is secured. */
  lemma RecordIsHigh(rep: Replica, op: Operation, done: Operation)
    requires Secured(rep, done) && Writes(rep, op) && op.AcceptOp? && !done.CommitOp? && op.slot == done.slot
    ensures !Less(op.ballot, done.ballot)
  {
    assert Possible(rep, rep.mem);
    AtLeastTransitive(op.ballot, Get(rep.mem, op.slot).promised, done.ballot);
  }

  lemma EventKeepsSecured(rep: Replica, e: Event, done: Operation)
    requires rep.synced <= |rep.log| && Secured(rep, done)
    ensures After(rep, e).synced <= |After(rep, e).log| && Secured(After(rep, e), done)
  {
    hide Kept, Append, Possible, Perform, Writes;
    match e
    case Did(op) =>
      PerformIsAppend(rep, op);
      if Writes(rep, op) {
        if op.AcceptOp? && !done.CommitOp? && op.slot == done.slot { RecordIsHigh(rep, op, done); }
        AppendKeepsSecured(rep, RecordOf(op), op.fault, done);
      }
    case Crashed(k, synced) =>
      if CanRestart(rep, k, synced) {
        forall m | Possible(Restart(rep, k, synced), m) ensures Kept(m, done) { RestartPossible(rep, k, synced, m); }
      }
  }

  lemma AppendKeepsSecured(rep: Replica, rec: Record, fault: Fault, done: Operation)
    requires rep.synced <= |rep.log| && Secured(rep, done)
    requires rec.AcceptRecord? && !done.CommitOp? && rec.slot == done.slot ==> !Less(rec.ballot, done.ballot)
    ensures var after := Append(rep, rec, fault).after; after.synced <= |after.log| && Secured(after, done)
  {
    hide Kept, Possible, Apply;
    forall m | Possible(Append(rep, rec, fault).after, m) ensures Kept(m, done) {
      AppendPossible(rep, rec, fault, m);
      if !Possible(rep, m) {
        var x :| Possible(rep, x) && m == Apply(x, rec);
        KeptByRecord(x, rec, done);
      }
    }
  }

  lemma {:induction false} OnwardKeepsSecured(rep: Replica, more: seq<Event>, done: Operation)
    requires rep.synced <= |rep.log| && Secured(rep, done)
    ensures Onward(rep, more).synced <= |Onward(rep, more).log| && Secured(Onward(rep, more), done)
  {
    hide After, Secured;
    if more != [] {
      OnwardKeepsSecured(rep, more[..|more| - 1], done);
      EventKeepsSecured(Onward(rep, more[..|more| - 1]), more[|more| - 1], done);
    }
  }

  lemma SurvivesIffSecured(rep: Replica, done: Operation)
    requires rep.synced <= |rep.log|
    ensures Survives(rep, done) <==> Secured(rep, done)
  {
    if Secured(rep, done) {
      forall more ensures Kept(Onward(rep, more).mem, done) {
        OnwardKeepsSecured(rep, more, done);
        assert Possible(Onward(rep, more), Onward(rep, more).mem);
      }
    } else {
      var m :| Possible(rep, m) && !Kept(m, done);
      if m == rep.mem {
        assert Onward(rep, []).mem == m;
      } else {
        var k: nat :| OnDisk(rep, k, m);
        LostByCrash(rep, k, done);
      }
    }
  }

  lemma LostByCrash(rep: Replica, k: nat, done: Operation)
    requires rep.synced <= k <= |rep.log| && AllRecords(rep.log[..k]) && !Kept(Fold(Records(rep.log[..k])), done)
    ensures !Survives(rep, done)
  {
    var crash := Crashed(k, rep.synced);
    assert [crash][..0] == [];
    assert Onward(rep, [crash]) == After(rep, crash);
    assert !Kept(Onward(rep, [crash]).mem, done);
  }

  // ----- the log never promises less than memory -----

  ghost predicate Ahead(rep: Replica) {
    AllRecords(rep.log) ==> forall n :: !Less(Get(Fold(Records(rep.log)), n).promised, Get(rep.mem, n).promised)
  }

  /** One record applied to two tables, of which one promises no less: still no less. */
  lemma ApplyAhead(x: Slots, y: Slots, rec: Record, n: nat)
    requires !Less(Get(x, n).promised, Get(y, n).promised)
    ensures !Less(Get(Apply(x, rec), n).promised, Get(Apply(y, rec), n).promised)
  {
    StrictTotalOrder();
  }

  /** A record that memory would not refuse, applied to the log's table only. */
  lemma ApplyKeepsAhead(x: Slots, y: Slots, rec: Record, n: nat)
    requires !Less(Get(x, n).promised, Get(y, n).promised)
    requires rec.AcceptRecord? && rec.slot == n ==> !Less(rec.ballot, Get(y, n).promised)
    ensures !Less(Get(Apply(x, rec), n).promised, Get(y, n).promised)
  {
    StrictTotalOrder();
  }

  lemma RecordsSnoc(log: seq<Line>, rec: Record)
    requires AllRecords(log)
    ensures AllRecords(log + [Some(rec)]) && Records(log + [Some(rec)]) == Records(log) + [rec]
  {
  }

  lemma AppendKeepsAhead(rep: Replica, rec: Record, fault: Fault)
    requires Ahead(rep) && (rec.AcceptRecord? ==> !Less(rec.ballot, Get(rep.mem, rec.slot).promised))
    ensures Ahead(Append(rep, rec, fault).after)
  {
    hide Fold, Apply, Less;
    var after := Append(rep, rec, fault).after;
    if AllRecords(after.log) && !fault.WriteFailed? {
      assert after.log[|rep.log|].Some? && after.log == rep.log + [Some(rec)];
      ShorterRecords(after.log, rep.log);
      RecordsSnoc(rep.log, rec);
      FoldSnoc(Records(rep.log), rec);
      forall n ensures !Less(Get(Fold(Records(after.log)), n).promised, Get(after.mem, n).promised) {
        ApplyAhead(Fold(Records(rep.log)), rep.mem, rec, n);
        ApplyKeepsAhead(Fold(Records(rep.log)), rep.mem, rec, n);
      }
    }
  }

  /** After an append that was acknowledged, memory's promises are all secured. */
  ghost predicate PromisesSecured(rep: Replica) {
    forall n :: SlotSecured(rep, n)
  }

  ghost predicate SlotSecured(rep: Replica, n: nat) {
    forall m :: Possible(rep, m) ==> !Less(Get(m, n).promised, Get(rep.mem, n).promised)
  }

  lemma AllSyncedSecured(rep: Replica)
    requires Ahead(rep) && rep.synced == |rep.log|
    ensures PromisesSecured(rep)
  {
    StrictTotalOrder();
    forall n, m | Possible(rep, m) ensures !Less(Get(m, n).promised, Get(rep.mem, n).promised) {
      if m != rep.mem {
        var k: nat :| OnDisk(rep, k, m);
        assert rep.log[..k] == rep.log;
      }
    }
  }

  /** A failed append changes no promise in memory, and secures no less. */
  lemma FailureKeepsPromises(rep: Replica, rec: Record, fault: Fault)
    requires rep.synced <= |rep.log| && PromisesSecured(rep) && !fault.NoFault?
    requires rec.AcceptRecord? ==> !Less(rec.ballot, Get(rep.mem, rec.slot).promised)
    ensures PromisesSecured(Append(rep, rec, fault).after)
  {
    hide Append, Possible, Less, Apply;
    var after := Append(rep, rec, fault).after;
    FailureKeepsMemory(rep, rec, fault);
    forall n ensures SlotSecured(after, n) {
      var done := PromiseOp(n, Get(rep.mem, n).promised, NoFault);
      assert SlotSecured(rep, n);
      assert Secured(rep, done);
      AppendKeepsSecured(rep, rec, fault, done);
      forall m | Possible(after, m) ensures !Less(Get(m, n).promised, Get(after.mem, n).promised) { assert Kept(m, done); }
    }
  }

  lemma FailureKeepsMemory(rep: Replica, rec: Record, fault: Fault)
    requires !fault.NoFault?
    ensures Append(rep, rec, fault).after.mem == rep.mem && Append(rep, rec, fault).after.synced == rep.synced
    ensures rep.log <= Append(rep, rec, fault).after.log <= rep.log + [if rep.torn then None else Some(rec)]
  {
  }

  // ----- what happened since the last start -----

  /** The acceptor as it was when it last started, and whether a write was acknowledged since. */
  datatype Since = Since(start: Replica, written: bool)

  function SinceStart(events: seq<Event>): Since {
    if events == [] then Since(FRESH, false)
    else
      var rep, s := Life(events[..|events| - 1]), SinceStart(events[..|events| - 1]);
      match events[|events| - 1]
      case Did(op) => s.(written := s.written || (Writes(rep, op) && op.fault == NoFault))
      case Crashed(k, synced) => if CanRestart(rep, k, synced) then Since(Restart(rep, k, synced), false) else s
  }

  /** A line that would lower a promise of `b` for slot `n`. */
  predicate Lowers(line: Line, n: nat, b: Ballot) {
    line.Some? && line.value.AcceptRecord? && line.value.slot == n && Less(line.value.ballot, b)
  }

  /** A log that promises `b` for slot `n` wherever a crash may cut it: the lines that cannot be lost do, and none of the
      others is an acceptance below `b`. */
  predicate Settled(rep: Replica, n: nat, b: Ballot)
    requires AllRecords(rep.log) && rep.synced <= |rep.log|
  {
    && !Less(Get(Fold(Records(rep.log[..rep.synced])), n).promised, b)
    && forall i :: rep.synced <= i < |rep.log| ==> !Lowers(rep.log[i], n, b)
  }

  /** An acceptor just started. */
  predicate Starting(rep: Replica) {
    AllRecords(rep.log) && rep.synced <= |rep.log| && rep.mem == Fold(Records(rep.log))
  }

  /** Nothing was acknowledged since the start: memory and what is synced are as then, and no acceptance that failed was
      below memory's promise. */
  ghost predicate Unwritten(start: Replica, rep: Replica) {
    && rep.mem == start.mem && rep.synced == start.synced && start.log <= rep.log
    && forall i, n :: |start.log| <= i < |rep.log| ==> !Lowers(rep.log[i], n, Get(rep.mem, n).promised)
  }

  ghost predicate Told(rep: Replica, s: Since) {
    && Starting(s.start) && rep.synced <= |rep.log| && Ahead(rep)
    && if s.written then PromisesSecured(rep) else Unwritten(s.start, rep)
  }

  lemma StartIsTold(rep: Replica)
    requires Starting(rep)
    ensures Told(rep, Since(rep, false))
  {
    StrictTotalOrder();
  }

  lemma WriteIsTold(rep: Replica, s: Since, rec: Record, fault: Fault)
    requires Told(rep, s) && (rec.AcceptRecord? ==> !Less(rec.ballot, Get(rep.mem, rec.slot).promised))
    ensures Told(Append(rep, rec, fault).after, s.(written := s.written || fault == NoFault))
  {
    hide PromisesSecured, Ahead, Less, Apply, Starting;
    var after := Append(rep, rec, fault).after;
    AppendKeepsAhead(rep, rec, fault);
    if fault == NoFault {
      AllSyncedSecured(after);
    } else if s.written {
      FailureKeepsPromises(rep, rec, fault);
      FailureKeepsMemory(rep, rec, fault);
    } else {
      FailureUnwritten(s.start, rep, rec, fault);
    }
  }

  lemma FailureUnwritten(start: Replica, rep: Replica, rec: Record, fault: Fault)
    requires Unwritten(start, rep) && !fault.NoFault? && rep.synced <= |rep.log|
    requires rec.AcceptRecord? ==> !Less(rec.ballot, Get(rep.mem, rec.slot).promised)
    ensures var after := Append(rep, rec, fault).after; Unwritten(start, after) && after.synced <= |after.log|
  {
    hide Append, Less;
    var after := Append(rep, rec, fault).after;
    FailureKeepsMemory(rep, rec, fault);
    forall i, n | |start.log| <= i < |after.log| ensures !Lowers(after.log[i], n, Get(after.mem, n).promised) {
      if i < |rep.log| { assert after.log[i] == rep.log[i]; }
    }
  }

  lemma {:induction false} LifeIsTold(events: seq<Event>)
    ensures Told(Life(events), SinceStart(events))
  {
    hide Told, CanRestart, Restart, Append;
    if events == [] {
      StartIsTold(FRESH);
    } else {
      var front, e := events[..|events| - 1], events[|events| - 1];
      var rep, s := Life(front), SinceStart(front);
      LifeIsTold(front);
      match e
      case Did(op) =>
        PerformIsAppend(rep, op);
        if Writes(rep, op) { WriteIsTold(rep, s, RecordOf(op), op.fault); }
      case Crashed(k, synced) =>
        if CanRestart(rep, k, synced) {
          RestartStarts(rep, k, synced);
          StartIsTold(Restart(rep, k, synced));
        }
    }
  }

  lemma RestartStarts(rep: Replica, k: nat, synced: nat)
    requires CanRestart(rep, k, synced)
    ensures Starting(Restart(rep, k, synced))
  {
  }

  // ----- which acknowledgements survive -----

  /** An acknowledgement that was written is secured. */
  lemma WrittenIsSecured(rep: Replica, op: Operation)
    requires Ahead(rep) && Writes(rep, op) && op.fault == NoFault
    ensures Secured(Perform(rep, op).after, op)
  {
    hide Fold, Less, Apply;
    var rec, after := RecordOf(op), Perform(rep, op).after;
    PerformIsAppend(rep, op);
    AppliedIsKept(rep.mem, op);
    forall m | Possible(after, m) && m != after.mem ensures Kept(m, op) {
      var k: nat :| OnDisk(after, k, m);
      assert after.log[..k] == after.log && after.log[|rep.log|].Some?;
      ShorterRecords(after.log, rep.log);
      RecordsSnoc(rep.log, rec);
      FoldSnoc(Records(rep.log), rec);
      AppliedIsKept(Fold(Records(rep.log)), op);
    }
  }

  lemma AppliedIsKept(x: Slots, op: Operation)
    ensures Kept(Apply(x, RecordOf(op)), op)
  {
    StrictTotalOrder();
  }

  /** Cut anywhere, a log whose synced lines promise `b`, with no lower acceptance after them, promises `b`. */
  lemma {:induction false} SettledCut(log: seq<Line>, synced: nat, k: nat, n: nat, b: Ballot)
    requires synced <= k <= |log| && AllRecords(log[..k]) && AllRecords(log[..synced])
    requires !Less(Get(Fold(Records(log[..synced])), n).promised, b)
    requires forall i :: synced <= i < k ==> !Lowers(log[i], n, b)
    ensures !Less(Get(Fold(Records(log[..k])), n).promised, b)
    decreases k
  {
    hide Fold, Apply, Less, Lowers;
    if synced < k {
      ShorterRecords(log[..k], log[..k - 1]);
      SettledCut(log, synced, k - 1, n, b);
      var rec := LastRecord(log, k);
      assert !Lowers(log[k - 1], n, b);
      RecordUnlowered(Fold(Records(log[..k - 1])), rec, n, b);
    }
  }

  lemma RecordUnlowered(x: Slots, rec: Record, n: nat, b: Ballot)
    requires !Less(Get(x, n).promised, b) && !Lowers(Some(rec), n, b)
    ensures !Less(Get(Apply(x, rec), n).promised, b)
  {
    StrictTotalOrder();
  }

  lemma ShorterRecords(log: seq<Line>, front: seq<Line>)
    requires AllRecords(log) && front <= log
    ensures AllRecords(front)
  {
    forall i | 0 <= i < |front| ensures front[i].Some? { assert log[i].Some?; }
  }

  lemma LastRecord(log: seq<Line>, k: nat) returns (rec: Record)
    requires 0 < k <= |log| && AllRecords(log[..k])
    ensures AllRecords(log[..k - 1]) && log[k - 1] == Some(rec)
    ensures Fold(Records(log[..k])) == Apply(Fold(Records(log[..k - 1])), rec)
  {
    hide Fold, Apply;
    assert log[..k][k - 1].Some?;
    rec := log[k - 1].value;
    assert log[..k] == log[..k - 1] + [Some(rec)];
    ShorterRecords(log[..k], log[..k - 1]);
    RecordsSnoc(log[..k - 1], rec);
    FoldSnoc(Records(log[..k - 1]), rec);
  }

  /** A promise repeated from memory, with nothing written since the start: secured exactly if the log the acceptor
      started from settles it. */
  lemma RepeatedIffSettled(start: Replica, rep: Replica, op: Operation)
    requires Starting(start) && Unwritten(start, rep) && rep.synced <= |rep.log|
    requires op.PromiseOp? && Get(rep.mem, op.slot).promised == op.ballot
    ensures Secured(rep, op) <==> Settled(start, op.slot, op.ballot)
  {
    hide Fold, Less;
    var n, b := op.slot, op.ballot;
    assert start.log[..start.synced] == rep.log[..rep.synced];
    if Settled(start, n, b) {
      Compare(b, b);
      forall m | Possible(rep, m) && m != rep.mem ensures Kept(m, op) {
        var k: nat :| OnDisk(rep, k, m);
        forall i | rep.synced <= i < k ensures !Lowers(rep.log[i], n, b) {
          if i < |start.log| { assert rep.log[i] == start.log[i]; }
        }
        SettledCut(rep.log, rep.synced, k, n, b);
      }
    } else if Less(Get(Fold(Records(start.log[..start.synced])), n).promised, b) {
      var m := Fold(Records(rep.log[..rep.synced]));
      assert OnDisk(rep, rep.synced, m) && !Kept(m, op);
    } else {
      var i :| start.synced <= i < |start.log| && Lowers(start.log[i], n, b);
      LoweredCut(start, rep, i, op);
    }
  }

  lemma LoweredCut(start: Replica, rep: Replica, i: nat, op: Operation)
    requires Starting(start) && Unwritten(start, rep)
    requires op.PromiseOp? && start.synced <= i < |start.log| && Lowers(start.log[i], op.slot, op.ballot)
    ensures !Secured(rep, op)
  {
    hide Fold;
    assert rep.log[..i + 1] == start.log[..i + 1];
    ShorterRecords(start.log, rep.log[..i + 1]);
    var rec := LastRecord(rep.log, i + 1);
    assert start.log[i] == rep.log[i];
    var m := Fold(Records(rep.log[..i + 1]));
    assert OnDisk(rep, i + 1, m) && !Kept(m, op);
  }

  /** Crash safety over every history: an acknowledged operation stands, whatever operations, failures and crashes follow,
      if and only if it was written; or, for a promise repeated from memory, some write was acknowledged since the last
      start, or the log found at that start promises it wherever it may be cut. */
  lemma AcknowledgedSurvivesIff(events: seq<Event>, op: Operation)
    requires Perform(Life(events), op).ok
    ensures var rep, s := Life(events), SinceStart(events);
            && AllRecords(s.start.log) && s.start.synced <= |s.start.log|
            && (Survives(Perform(rep, op).after, op) <==>
                  || Writes(rep, op)
                  || s.written
                  || (op.PromiseOp? && Settled(s.start, op.slot, op.ballot)))
  {
    hide Append, Fold, Less, SinceStart, Onward, Kept, Possible, Survives, Ahead, Settled, Unwritten, Starting;
    var rep, s := Life(events), SinceStart(events);
    LifeIsTold(events);
    PerformIsAppend(rep, op);
    EventKeepsBounds(rep, op);
    SurvivesIffSecured(Perform(rep, op).after, op);
    StartingLog(s.start);
    if Writes(rep, op) {
      OkIsUnfailed(rep, op);
      WrittenIsSecured(rep, op);
    } else if s.written {
      RepeatedIsSecured(rep, op);
    } else {
      RepeatedIffSettled(s.start, rep, op);
    }
  }

  lemma StartingLog(rep: Replica)
    requires Starting(rep)
    ensures AllRecords(rep.log) && rep.synced <= |rep.log|
  {
  }

  lemma OkIsUnfailed(rep: Replica, op: Operation)
    requires Perform(rep, op).ok && Writes(rep, op)
    ensures op.fault == NoFault
  {
    PerformIsAppend(rep, op);
  }

  lemma EventKeepsBounds(rep: Replica, op: Operation)
    requires rep.synced <= |rep.log|
    ensures Perform(rep, op).after.synced <= |Perform(rep, op).after.log|
  {
    PerformIsAppend(rep, op);
  }

  lemma RepeatedIsSecured(rep: Replica, op: Operation)
    requires PromisesSecured(rep) && op.PromiseOp? && Get(rep.mem, op.slot).promised == op.ballot
    ensures Secured(rep, op)
  {
    assert SlotSecured(rep, op.slot);
  }

  // ----- the acknowledgement that is lost, and what would keep it -----

  lemma OneEvent(rep: Replica, events: seq<Event>, e: Event)
    ensures Onward(rep, events + [e]) == After(Onward(rep, events), e)
  {
    assert (events + [e])[..|events|] == events;
  }

  /** A disk that holds the line of one promise, not synced, and the memory of an acceptor started from it. */
  function Unsynced(m: Slots, n: nat, b: Ballot): Replica {
    Replica(m, [Some(PromiseRecord(n, b))], false, 0)
  }

  lemma FailedPromise(n: nat, b: Ballot)
    requires b != ZERO
    ensures Perform(FRESH, PromiseOp(n, b, SyncFailed)) == Appended(Unsynced(FRESH.mem, n, b), false)
  {
    StrictTotalOrder();
    hide Less, Apply;
    assert Get(FRESH.mem, n) == EMPTY_SLOT;
    assert FRESH.log + [Some(PromiseRecord(n, b))] == [Some(PromiseRecord(n, b))];
  }

  lemma OneLine(n: nat, b: Ballot)
    ensures var log := Unsynced(FRESH.mem, n, b).log;
            AllRecords(log[..1]) && Fold(Records(log[..1])) == Apply(FRESH.mem, PromiseRecord(n, b))
    ensures Unsynced(FRESH.mem, n, b).log[..1] == Unsynced(FRESH.mem, n, b).log
  {
    hide Apply;
    var rec := PromiseRecord(n, b);
    assert [Some(rec)][..1] == FRESH.log + [Some(rec)];
    RecordsSnoc(FRESH.log, rec);
    FoldSnoc(Records(FRESH.log), rec);
    assert Records(FRESH.log) == [];
  }

  lemma PromiseApplied(n: nat, b: Ballot)
    requires b != ZERO
    ensures Get(Apply(FRESH.mem, PromiseRecord(n, b)), n) == EMPTY_SLOT.(promised := b)
  {
    StrictTotalOrder();
    hide Less;
    assert Get(FRESH.mem, n) == EMPTY_SLOT;
  }

  lemma RepeatedPromise(rep: Replica, n: nat, b: Ballot)
    requires Get(rep.mem, n).promised == b
    ensures Perform(rep, PromiseOp(n, b, NoFault)) == Appended(rep, true)
  {
    Compare(b, b);
    hide Append;
  }

  /** A concrete life: the line of a promise is written but its sync fails; a restart still finds it, and the same promise
      is now acknowledged without a write; a crash takes the line, and the acceptor shows no promise at all. */
  lemma RepeatedPromiseIsLost(n: nat, b: Ballot)
    requires b != ZERO
    ensures var events := [Did(PromiseOp(n, b, SyncFailed)), Crashed(1, 0)];
            var op := PromiseOp(n, b, NoFault);
            && !Perform(FRESH, PromiseOp(n, b, SyncFailed)).ok
            && Perform(Life(events), op) == Appended(Life(events), true)
            && Get(After(Life(events), Crashed(0, 0)).mem, n) == EMPTY_SLOT && !Survives(Life(events), op)
  {
    hide Less, Apply, Perform, Survives, Fold;
    var failed, crash, op := Did(PromiseOp(n, b, SyncFailed)), Crashed(1, 0), PromiseOp(n, b, NoFault);
    var torn, rep := Unsynced(FRESH.mem, n, b), Unsynced(Apply(FRESH.mem, PromiseRecord(n, b)), n, b);
    FailedPromise(n, b);
    OneLine(n, b);
    PromiseApplied(n, b);
    OneEvent(FRESH, [], failed);
    OneEvent(FRESH, [failed], crash);
    assert [] + [failed] == [failed] && [failed] + [crash] == [failed, crash];
    assert Life([failed, crash]) == rep;
    RepeatedPromise(rep, n, b);
    NothingLeft(rep, n, b);
    LostByCrash(rep, 0, op);
  }

  lemma NothingLeft(rep: Replica, n: nat, b: Ballot)
    requires b != ZERO && rep.synced == 0
    ensures AllRecords(rep.log[..0]) && Get(Fold(Records(rep.log[..0])), n) == EMPTY_SLOT
    ensures CanRestart(rep, 0, 0) && !Kept(Fold(Records(rep.log[..0])), PromiseOp(n, b, NoFault))
  {
    StrictTotalOrder();
    hide Less;
  }

  /** If every start made sure of all the lines it found, every acknowledgement would stand. */
  lemma SyncingStartsLoseNothing(events: seq<Event>, op: Operation)
    requires Perform(Life(events), op).ok
    requires forall e <- events :: e.Crashed? ==> e.synced == e.k
    ensures Survives(Perform(Life(events), op).after, op)
  {
    hide Survives, Append, Writes, Perform, Fold;
    var rep, s := Life(events), SinceStart(events);
    AcknowledgedSurvivesIff(events, op);
    LifeIsTold(events);
    StartIsSynced(events);
    PerformIsAppend(rep, op);
    if !Writes(rep, op) && !s.written {
      Compare(op.ballot, op.ballot);
      assert s.start.log[..s.start.synced] == s.start.log;
    }
  }

  lemma {:induction false} StartIsSynced(events: seq<Event>)
    requires forall e <- events :: e.Crashed? ==> e.synced == e.k
    ensures SinceStart(events).start.synced == |SinceStart(events).start.log|
  {
    hide Perform, Writes, Fold;
    if events != [] {
      assert events[|events| - 1] in events;
      StartIsSynced(events[..|events| - 1]);
    }
  }
}
