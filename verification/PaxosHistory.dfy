/** What survives of a whole history of appends, and when nothing does. */
module PaxosHistory {
  import opened Options
  import opened PaxosStorage

  datatype Attempted = Attempted(record: Record, fault: Fault)

  /** An acceptor just opened: every line is a record, the file ends in a whole line, memory shows the log. */
  predicate Clean(rep: Replica) {
    AllRecords(rep.log) && !rep.torn && rep.synced <= |rep.log| && rep.mem == Fold(Records(rep.log))
  }

  /** The acceptor after these appends. */
  function Replay(base: Replica, ops: seq<Attempted>): (rep: Replica)
    ensures base.synced <= |base.log| ==> rep.synced <= |rep.log|
  {
    if ops == [] then base
    else Append(Replay(base, ops[..|ops| - 1]), ops[|ops| - 1].record, ops[|ops| - 1].fault).after
  }

  /** The records whose whole line reached the file, in order. */
  function Written(ops: seq<Attempted>): seq<Record> {
    if ops == [] then []
    else
      var last := ops[|ops| - 1];
      Written(ops[..|ops| - 1]) + if last.fault.WriteFailed? then [] else [last.record]
  }

  /** An append after a partial write that nothing has ended yet: its line is glued to the fragment. */
  predicate Glued(ops: seq<Attempted>, i: nat, j: nat) {
    i < j < |ops| && ops[i].fault == WriteFailed(true) && !ops[j].fault.WriteFailed?
  }

  ghost predicate NeverGlued(ops: seq<Attempted>) {
    forall i, j :: !Glued(ops, i, j)
  }

  lemma {:induction false} Shape(base: Replica, ops: seq<Attempted>)
    requires Clean(base)
    ensures |Replay(base, ops).log| == |base.log| + |Written(ops)|
    ensures Replay(base, ops).torn ==> exists i: nat :: i < |ops| && ops[i].fault == WriteFailed(true)
  {
    if ops != [] {
      var front := ops[..|ops| - 1];
      Shape(base, front);
    }
  }

  /** As long as nothing was glued, the log holds exactly the records written. */
  lemma {:induction false} UngluedLogIsWritten(base: Replica, ops: seq<Attempted>)
    requires Clean(base) && NeverGlued(ops)
    ensures AllRecords(Replay(base, ops).log) && Records(Replay(base, ops).log) == Records(base.log) + Written(ops)
  {
    hide Fold, Apply;
    if ops != [] {
      var front := ops[..|ops| - 1];
      assert forall i, j :: Glued(front, i, j) ==> Glued(ops, i, j);
      UngluedLogIsWritten(base, front);
      Shape(base, front);
      if Replay(base, front).torn {
        var i: nat :| i < |front| && front[i].fault == WriteFailed(true);
        assert !Glued(ops, i, |front|);
      }
    }
  }

  /** A longer history only adds lines, written records and synced lines. */
  lemma {:induction false} HistoryExtends(base: Replica, ops: seq<Attempted>, i: nat, j: nat)
    requires Clean(base) && i <= j <= |ops|
    ensures Replay(base, ops[..i]).log <= Replay(base, ops[..j]).log && Written(ops[..i]) <= Written(ops[..j])
    ensures Replay(base, ops[..i]).synced <= Replay(base, ops[..j]).synced
    decreases j
  {
    if i < j {
      HistoryExtends(base, ops, i, j - 1);
      assert ops[..j][..j - 1] == ops[..j - 1];
    }
  }

  lemma Whole(ops: seq<Attempted>)
    ensures ops[..|ops|] == ops
  {
  }

  /** A line that parses is the record written there: what was glued to a fragment reads as no record at all. */
  ghost predicate LinesAreWritten(log: seq<Line>, written: seq<Record>) {
    && |log| == |written|
    && forall n :: 0 <= n < |log| ==> log[n] == None || log[n] == Some(written[n])
  }

  lemma {:induction false} LogIsWritten(base: Replica, ops: seq<Attempted>)
    requires Clean(base)
    ensures LinesAreWritten(Replay(base, ops).log, Records(base.log) + Written(ops))
  {
    if ops != [] {
      LogIsWritten(base, ops[..|ops| - 1]);
    }
  }

  /** Crash safety: whatever a restart finds is what some first part of the records amounts to, those found at the
      last start and those written since, and every acknowledged record is among them. */
  lemma CrashSafe(base: Replica, ops: seq<Attempted>, k: nat, synced: nat, i: nat)
    requires Clean(base) && CanRestart(Replay(base, ops), k, synced)
    ensures var all := Records(base.log) + Written(ops);
            k <= |all| && Restart(Replay(base, ops), k, synced).mem == Fold(all[..k])
    ensures i < |ops| && ops[i].fault == NoFault ==>
              var n := |base.log| + |Written(ops[..i])|;
              n < synced && Restart(Replay(base, ops), k, synced).log[n] == Some(ops[i].record)
  {
    hide Fold, Apply, Append;
    LogIsWritten(base, ops);
    var log, all := Replay(base, ops).log, Records(base.log) + Written(ops);
    assert Records(log[..k]) == all[..k] by {
      forall n | 0 <= n < k ensures log[n] == Some(all[n]) { assert log[..k][n].Some?; }
    }
    if i < |ops| && ops[i].fault == NoFault {
      AcknowledgedIsSynced(base, ops, i);
      assert ops[..i + 1][..i] == ops[..i];
      HistoryExtends(base, ops, i + 1, |ops|);
      Whole(ops);
      LogIsWritten(base, ops[..i + 1]);
      assert Written(ops[..i + 1])[|Written(ops[..i])|] == ops[i].record;
      assert log[..k][|base.log| + |Written(ops[..i])|].Some?;
    }
  }

  predicate BadLine(rep: Replica, n: nat) {
    n < |rep.log| && rep.log[n] == None
  }

  /** With a glued line under an acknowledged one, no restart is possible any more, whatever the crash leaves. */
  lemma GluedIsLost(base: Replica, ops: seq<Attempted>, i: nat, j: nat, a: nat, k: nat, synced: nat)
    requires Clean(base) && Glued(ops, i, j) && j <= a < |ops| && ops[a].fault == NoFault
    ensures !CanRestart(Replay(base, ops), k, synced)
  {
    hide Append, Fold, Apply, Glued, CanRestart;
    var n := GluedIsBad(base, ops, i, j);
    HistoryExtends(base, ops, j + 1, a + 1);
    HistoryExtends(base, ops, a + 1, |ops|);
    Whole(ops);
    AcknowledgedIsSynced(base, ops, a);
    assert n < |Replay(base, ops[..a + 1]).log|;
    BadLineBlocks(Replay(base, ops), n, k, synced);
  }

  lemma BadLineBlocks(rep: Replica, n: nat, k: nat, synced: nat)
    requires BadLine(rep, n) && n < rep.synced
    ensures !CanRestart(rep, k, synced)
  {
    if rep.synced <= k <= |rep.log| {
      assert rep.log[..k][n] == rep.log[n];
    }
  }

  lemma AcknowledgedIsSynced(base: Replica, ops: seq<Attempted>, a: nat)
    requires a < |ops| && ops[a].fault == NoFault
    ensures Replay(base, ops[..a + 1]).synced == |Replay(base, ops[..a + 1]).log|
  {
    assert ops[..a + 1][..a] == ops[..a];
  }

  lemma {:induction false} GluedIsBad(base: Replica, ops: seq<Attempted>, i: nat, j: nat) returns (n: nat)
    requires Clean(base) && Glued(ops, i, j)
    ensures BadLine(Replay(base, ops[..j + 1]), n)
    decreases j
  {
    hide Append, Fold, Apply, Clean;
    if m: nat :| i < m < j && !ops[m].fault.WriteFailed? {
      n := GluedIsBad(base, ops, i, m);
      HistoryExtends(base, ops, m + 1, j + 1);
    } else {
      StaysTorn(base, ops, i, j);
      n := |Replay(base, ops[..j]).log|;
      GluedLine(base, ops, j);
    }
  }

  /** A line after a fragment is one with it. */
  lemma GluedLine(base: Replica, ops: seq<Attempted>, j: nat)
    requires j < |ops| && Replay(base, ops[..j]).torn && !ops[j].fault.WriteFailed?
    ensures BadLine(Replay(base, ops[..j + 1]), |Replay(base, ops[..j]).log|)
  {
    hide Fold, Apply;
    assert ops[..j + 1][..j] == ops[..j];
  }

  /** A fragment stays at the end of the file until a whole line is written. */
  lemma {:induction false} StaysTorn(base: Replica, ops: seq<Attempted>, i: nat, j: nat)
    requires i < j <= |ops| && ops[i].fault == WriteFailed(true)
    requires forall m: nat :: i < m < j ==> ops[m].fault.WriteFailed?
    ensures Replay(base, ops[..j]).torn
    decreases j
  {
    assert ops[..j][..j - 1] == ops[..j - 1];
    if i + 1 < j { StaysTorn(base, ops, i, j - 1); }
  }

  /** An acknowledged append at or after a glued one. */
  predicate AcknowledgedOverGlue(ops: seq<Attempted>, i: nat, j: nat, a: nat) {
    Glued(ops, i, j) && j <= a < |ops| && ops[a].fault == NoFault
  }

  ghost predicate Reopens(rep: Replica) {
    exists k, synced :: CanRestart(rep, k, synced)
  }

  /** The store can be reopened after some crash exactly if no append was acknowledged after one that was glued:
      what decides is whether `append` was called again after a write that failed part way. */
  lemma ReopensIff(base: Replica, ops: seq<Attempted>)
    requires Clean(base)
    ensures Reopens(Replay(base, ops)) <==>
            !(exists i, j, a :: AcknowledgedOverGlue(ops, i, j, a))
  {
    if i, j, a :| AcknowledgedOverGlue(ops, i, j, a) {
      forall k, synced ensures !CanRestart(Replay(base, ops), k, synced) { GluedIsLost(base, ops, i, j, a, k, synced); }
    } else {
      SyncedPartReopens(base, ops);
    }
  }

  lemma SyncedPartReopens(base: Replica, ops: seq<Attempted>)
    requires Clean(base) && forall i, j, a :: !AcknowledgedOverGlue(ops, i, j, a)
    ensures CanRestart(Replay(base, ops), Replay(base, ops).synced, Replay(base, ops).synced)
  {
    var n := LastAcknowledged(base, ops);
    HistoryExtends(base, ops, n, |ops|);
    Whole(ops);
    forall i, j | Glued(ops[..n], i, j) ensures false { assert AcknowledgedOverGlue(ops, i, j, n - 1); }
    UngluedLogIsWritten(base, ops[..n]);
    ReplayNone(base, ops[..n]);
    assert Replay(base, ops).log[..Replay(base, ops).synced] == Replay(base, ops[..n]).log[..Replay(base, ops).synced];
  }

  lemma ReplayNone(base: Replica, ops: seq<Attempted>)
    requires Clean(base)
    ensures Replay(base, ops).synced <= |Replay(base, ops).log|
  {
  }

  /** The length of the history up to and including its last acknowledged append, which sets what is synced. */
  lemma {:induction false} LastAcknowledged(base: Replica, ops: seq<Attempted>) returns (n: nat)
    ensures n <= |ops| && (n == 0 || ops[n - 1].fault == NoFault)
    ensures Replay(base, ops).synced == Replay(base, ops[..n]).synced
  {
    if ops == [] || ops[|ops| - 1].fault == NoFault {
      n := |ops|;
      Whole(ops);
    } else {
      n := LastAcknowledged(base, ops[..|ops| - 1]);
      assert ops[..|ops| - 1][..n] == ops[..n];
    }
  }

  /** Whatever a crash leaves of the unsynced lines can be opened. */
  ghost predicate AlwaysReopens(rep: Replica) {
    forall k: nat, synced: nat :: rep.synced <= synced <= k <= |rep.log| ==> CanRestart(rep, k, synced)
  }

  /** The store can be reopened after every crash exactly if no line was ever glued to a fragment, that is, if no line
      was written after a write that failed part way. */
  lemma AlwaysReopensIff(base: Replica, ops: seq<Attempted>)
    requires Clean(base)
    ensures AlwaysReopens(Replay(base, ops)) <==> NeverGlued(ops)
  {
    hide Append, Fold, Apply;
    var rep := Replay(base, ops);
    if i: nat, j: nat :| Glued(ops, i, j) {
      var n := GluedIsBad(base, ops, i, j);
      HistoryExtends(base, ops, j + 1, |ops|);
      Whole(ops);
      assert rep.log[..|rep.log|][n] == None;
      assert !CanRestart(rep, |rep.log|, rep.synced);
    } else {
      UngluedLogIsWritten(base, ops);
    }
  }

  /** A concrete life that ends: one record cut off half way, the next one acknowledged, and no start ever again. */
  lemma GluedOnceNeverReopens(r: Record)
    ensures !Reopens(Replay(FRESH, [Attempted(r, WriteFailed(true)), Attempted(r, NoFault)]))
  {
    var ops := [Attempted(r, WriteFailed(true)), Attempted(r, NoFault)];
    assert AcknowledgedOverGlue(ops, 0, 1, 1);
    ReopensIff(FRESH, ops);
  }

  // ----- one start after another -----

  /** The appends between two starts, and what the crash at their end left: the file's first `k` lines, of which
      `synced` can no longer be lost. */
  datatype Epoch = Epoch(ops: seq<Attempted>, k: nat, synced: nat)

  /** The acceptor after these epochs; each crash leaves what the disk had to keep, in a file that can be read. */
  ghost predicate Lived(epochs: seq<Epoch>, starts: seq<Replica>) {
    && |starts| == |epochs| + 1 && starts[0] == FRESH
    && forall e :: 0 <= e < |epochs| ==> Epochal(epochs[e], starts[e], starts[e + 1])
  }

  ghost predicate Epochal(epoch: Epoch, before: Replica, after: Replica) {
    && CanRestart(Replay(before, epoch.ops), epoch.k, epoch.synced)
    && after == Restart(Replay(before, epoch.ops), epoch.k, epoch.synced)
  }

  lemma {:induction false} StartsClean(epochs: seq<Epoch>, starts: seq<Replica>, e: nat)
    requires Lived(epochs, starts) && e < |starts|
    ensures Clean(starts[e])
  {
    if e > 0 {
      StartsClean(epochs, starts, e - 1);
      assert Epochal(epochs[e - 1], starts[e - 1], starts[e - 1 + 1]);
    }
  }

  /** Lines that cannot be lost stay as they are through every later start. */
  lemma {:induction false} SyncedLinesStay(epochs: seq<Epoch>, starts: seq<Replica>, e: nat, f: nat)
    requires Lived(epochs, starts) && e <= f < |starts|
    ensures starts[e].synced <= |starts[e].log| && starts[e].log[..starts[e].synced] <= starts[f].log
    ensures starts[e].synced <= starts[f].synced
    decreases f
  {
    StartsClean(epochs, starts, e);
    if e < f {
      hide Epochal, Clean;
      SyncedLinesStay(epochs, starts, e, f - 1);
      StartsClean(epochs, starts, f - 1);
      var n := starts[e].synced;
      EpochKeepsSynced(epochs[f - 1], starts[f - 1], starts[f - 1 + 1]);
      assert starts[e].log[..n] == starts[f - 1].log[..n] == starts[f].log[..n];
    }
  }

  /** Over one epoch what was synced stays where it was. */
  lemma EpochKeepsSynced(epoch: Epoch, before: Replica, after: Replica)
    requires Clean(before) && Epochal(epoch, before, after)
    ensures before.synced <= after.synced <= |after.log| && before.synced <= |before.log|
    ensures forall n: nat :: n <= before.synced ==> before.log[..n] == after.log[..n]
  {
    hide Append, Fold;
    var rep := Replay(before, epoch.ops);
    HistoryExtends(before, epoch.ops, 0, |epoch.ops|);
    Whole(epoch.ops);
    assert before.log <= rep.log && after.log == rep.log[..epoch.k];
  }

  /** Crash safety over a whole life: a record acknowledged once is found after every later crash and start, at the
      place in the log where it was written, and memory is always what the log amounts to. */
  lemma AcknowledgedForGood(epochs: seq<Epoch>, starts: seq<Replica>, e: nat, i: nat, f: nat)
    requires Lived(epochs, starts) && e < f < |starts|
    requires i < |epochs[e].ops| && epochs[e].ops[i].fault == NoFault
    ensures Clean(starts[f])
    ensures var n := |starts[e].log| + |Written(epochs[e].ops[..i])|;
            n < |starts[f].log| && starts[f].log[n] == Some(epochs[e].ops[i].record)
  {
    hide Fold, Apply, Replay;
    var epoch, base := epochs[e], starts[e];
    StartsClean(epochs, starts, e);
    StartsClean(epochs, starts, f);
    assert Epochal(epoch, base, starts[e + 1]);
    CrashSafe(base, epoch.ops, epoch.k, epoch.synced, i);
    SyncedLinesStay(epochs, starts, e + 1, f);
    var n := |base.log| + |Written(epoch.ops[..i])|;
    assert starts[e + 1].log[n] == starts[e + 1].log[..starts[e + 1].synced][n];
  }
}
