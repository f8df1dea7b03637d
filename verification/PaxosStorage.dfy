/**
 The durable acceptor as values: what one record does to the slot table, what a log of records
 amounts to, and what each operation does to memory and disk when the disk may fail under it.
 */
module PaxosStorage {
  import opened Options
  import opened PaxosBallots

  datatype Value = Value(key: string, value: string, requestID: string)

  const NO_VALUE := Value("", "", "")

  datatype Slot = Slot(promised: Ballot, accepted: Ballot, value: Value, hasAccepted: bool, committed: bool)

  const EMPTY_SLOT := Slot(ZERO, ZERO, NO_VALUE, false, false)

  datatype Record =
    | PromiseRecord(slot: nat, ballot: Ballot)
    | AcceptRecord(slot: nat, ballot: Ballot, value: Value)
    | CommitRecord(slot: nat, value: Value)

  type Slots = map<nat, Slot>

  /** Reading a missing slot gives the zero slot. */
  function Get(slots: Slots, slot: nat): Slot {
    if slot in slots then slots[slot] else EMPTY_SLOT
  }

  function ApplyTo(x: Slot, rec: Record): Slot {
    match rec
    case PromiseRecord(_, b) => if Less(x.promised, b) then x.(promised := b) else x
    case AcceptRecord(_, b, v) => x.(promised := b, accepted := b, value := v, hasAccepted := true)
    case CommitRecord(_, v) => x.(value := v, committed := true)
  }

  function Apply(slots: Slots, rec: Record): Slots {
    slots[rec.slot := ApplyTo(Get(slots, rec.slot), rec)]
  }

  function Fold(recs: seq<Record>): Slots {
    if recs == [] then map[] else Apply(Fold(recs[..|recs| - 1]), recs[|recs| - 1])
  }

  lemma FoldSnoc(recs: seq<Record>, rec: Record)
    ensures Fold(recs + [rec]) == Apply(Fold(recs), rec)
  {
    assert (recs + [rec])[..|recs|] == recs;
  }

  /** How one append to the log can go wrong: nothing, part of a line reaches the file, or the whole line
      does but the sync fails. A crash in the middle of an append is one of the last two followed by a restart. */
  datatype Fault = NoFault | WriteFailed(partial: bool) | SyncFailed

  /** A log line: a record, or (None) a record that was glued to an earlier torn write and no longer parses. */
  type Line = Option<Record>

  /** Memory and disk of one acceptor. The first `synced` lines survive any crash; `torn` says that the
      file ends in an unterminated fragment. */
  datatype Replica = Replica(mem: Slots, log: seq<Line>, torn: bool, synced: nat)

  const FRESH := Replica(map[], [], false, 0)

  predicate AllRecords(log: seq<Line>) {
    forall i :: 0 <= i < |log| ==> log[i].Some?
  }

  function Records(log: seq<Line>): (recs: seq<Record>)
    requires AllRecords(log)
    ensures |recs| == |log|
    ensures forall i :: 0 <= i < |log| ==> log[i] == Some(recs[i])
  {
    seq(|log|, i requires 0 <= i < |log| => log[i].value)
  }

  datatype Appended = Appended(after: Replica, ok: bool)

  function Append(rep: Replica, rec: Record, fault: Fault): Appended {
    var line := if rep.torn then None else Some(rec);
    match fault
    case NoFault => Appended(Replica(Apply(rep.mem, rec), rep.log + [line], false, |rep.log| + 1), true)
    case SyncFailed => Appended(rep.(log := rep.log + [line], torn := false), false)
    case WriteFailed(partial) => Appended(rep.(torn := rep.torn || partial), false)
  }

  datatype PromiseResult = PromiseResult(after: Replica, reply: Slot, ok: bool)

  function Promise(rep: Replica, slot: nat, b: Ballot, fault: Fault): PromiseResult {
    var x := Get(rep.mem, slot);
    if Less(b, x.promised) then PromiseResult(rep, x, false)
    else if x.promised == b then PromiseResult(rep, x, true)
    else
      var a := Append(rep, PromiseRecord(slot, b), fault);
      PromiseResult(a.after, if a.ok then Get(a.after.mem, slot) else x, a.ok)
  }

  function Accept(rep: Replica, slot: nat, b: Ballot, v: Value, fault: Fault): Appended {
    var x := Get(rep.mem, slot);
    if Less(b, x.promised) then Appended(rep, false)
    else if x.hasAccepted && x.accepted == b && x.value != v then Appended(rep, false)
    else Append(rep, AcceptRecord(slot, b, v), fault)
  }

  function Commit(rep: Replica, slot: nat, v: Value, fault: Fault): Appended {
    var x := Get(rep.mem, slot);
    if x.committed && x.value != v then Appended(rep, false)
    else Append(rep, CommitRecord(slot, v), fault)
  }

  // ----- what a caller is told, and what memory shows then -----

  predicate OthersSame(m: Slots, after: Slots, n: nat) {
    && (forall k <- m :: k != n ==> k in after && after[k] == m[k])
    && forall k <- after :: k != n ==> k in m
  }

  /** A promise is given for ballots not below the one promised, at once if it was given before, and otherwise once it is
      on disk. The answer is the slot as it was, with the ballot as its promise if it was given. */
  lemma PromiseAnswers(rep: Replica, n: nat, b: Ballot, fault: Fault)
    ensures var x, p := Get(rep.mem, n), Promise(rep, n, b, fault);
            && (p.ok <==> !Less(b, x.promised) && (x.promised == b || fault == NoFault))
            && p.reply == (if p.ok then x.(promised := b) else x) && Get(p.after.mem, n) == p.reply
            && OthersSame(rep.mem, p.after.mem, n)
  {
    Compare(b, Get(rep.mem, n).promised);
  }

  /** An acceptance is given for ballots not below the one promised, unless another value was accepted under the same
      ballot, once it is on disk; the slot then has promised and accepted the ballot, with this value. */
  lemma AcceptAnswers(rep: Replica, n: nat, b: Ballot, v: Value, fault: Fault)
    ensures var x, a := Get(rep.mem, n), Accept(rep, n, b, v, fault);
            && (a.ok <==> !Less(b, x.promised) && !(x.hasAccepted && x.accepted == b && x.value != v) && fault == NoFault)
            && Get(a.after.mem, n) == (if a.ok then Slot(b, b, v, true, x.committed) else x)
            && OthersSame(rep.mem, a.after.mem, n)
  {
  }

  /** A commit is taken unless another value was committed, once it is on disk. */
  lemma CommitAnswers(rep: Replica, n: nat, v: Value, fault: Fault)
    ensures var x, c := Get(rep.mem, n), Commit(rep, n, v, fault);
            && (c.ok <==> !(x.committed && x.value != v) && fault == NoFault)
            && Get(c.after.mem, n) == (if c.ok then x.(value := v, committed := true) else x)
            && OthersSame(rep.mem, c.after.mem, n)
  {
  }

  /** A restart that finds the first `k` lines on disk, of which `synced` are there for good. */
  predicate CanRestart(rep: Replica, k: nat, synced: nat) {
    rep.synced <= synced <= k <= |rep.log| && AllRecords(rep.log[..k])
  }

  function Restart(rep: Replica, k: nat, synced: nat): Replica
    requires CanRestart(rep, k, synced)
  {
    Replica(Fold(Records(rep.log[..k])), rep.log[..k], false, synced)
  }

  /** The slot tables this acceptor may show: the one in memory now, or any that a restart could rebuild. */
  ghost predicate Possible(rep: Replica, m: Slots) {
    m == rep.mem || exists k: nat :: OnDisk(rep, k, m)
  }

  ghost predicate OnDisk(rep: Replica, k: nat, m: Slots) {
    rep.synced <= k <= |rep.log| && AllRecords(rep.log[..k]) && m == Fold(Records(rep.log[..k]))
  }

  /** An append can only add, to what the acceptor might show, one application of its record to something
      it might already have shown; a successful one leaves nothing else. */
  lemma AppendPossible(rep: Replica, rec: Record, fault: Fault, m: Slots)
    requires rep.synced <= |rep.log|
    requires Possible(Append(rep, rec, fault).after, m)
    ensures fault == NoFault ==> exists x :: Possible(rep, x) && m == Apply(x, rec)
    ensures Possible(rep, m) || exists x :: Possible(rep, x) && m == Apply(x, rec)
  {
    var after := Append(rep, rec, fault).after;
    if m == after.mem {
      assert Possible(rep, rep.mem);
    } else {
      var k: nat :| OnDisk(after, k, m);
      if k <= |rep.log| && !fault.NoFault? {
        assert after.log[..k] == rep.log[..k];
        assert OnDisk(rep, k, m);
      } else {
        LastLinePossible(rep, rec, after, m);
      }
    }
  }

  lemma LastLinePossible(rep: Replica, rec: Record, after: Replica, m: Slots)
    requires rep.synced <= |rep.log|
    requires after.log == rep.log + [if rep.torn then None else Some(rec)]
    requires AllRecords(after.log[..|after.log|]) && m == Fold(Records(after.log[..|after.log|]))
    ensures exists x :: Possible(rep, x) && m == Apply(x, rec)
  {
    var n := |rep.log|;
    assert after.log[..n + 1] == after.log;
    assert after.log[n].Some?;
    assert rep.log[..n] == rep.log == after.log[..n];
    assert AllRecords(rep.log) by {
      forall i | 0 <= i < n ensures rep.log[i].Some? { assert after.log[i].Some?; }
    }
    assert Records(after.log) == Records(rep.log) + [rec];
    FoldSnoc(Records(rep.log), rec);
    var x := Fold(Records(rep.log[..n]));
    assert OnDisk(rep, n, x);
  }

  lemma RestartPossible(rep: Replica, k: nat, synced: nat, m: Slots)
    requires CanRestart(rep, k, synced)
    requires Possible(Restart(rep, k, synced), m)
    ensures Possible(rep, m)
  {
    var after := Restart(rep, k, synced);
    if m == after.mem {
      assert OnDisk(rep, k, m);
    } else {
      var j: nat :| OnDisk(after, j, m);
      assert after.log[..j] == rep.log[..j];
      assert OnDisk(rep, j, m);
    }
  }
}
