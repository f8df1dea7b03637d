/** The acceptor's store as the program keeps it: a slot table in memory and a log file, updated in place. */
module PaxosStore {
  import opened Bytes
  import opened Options
  import opened PaxosBallots
  import opened PaxosStorage
  import opened PaxosWal
  import S = PaxosStorage

  /** What the operating system made of one append: bytes that reached the file, and whether the sync succeeded. */
  datatype Io = Io(written: nat, synced: bool)

  function FaultOf(io: Io, length: nat): Fault {
    if io.written < length then WriteFailed(io.written > 0)
    else if !io.synced then SyncFailed
    else NoFault
  }

  class Store {
    const codec: Codec
    var slots: Slots
    var file: Data
    ghost var synced: nat  // complete lines known to be on disk

    ghost predicate Valid()
      reads this
    {
      && GoodCodec(codec)
      && synced <= |Lines(file)|
      && (Tail(file) == [] || Fragments(codec, Tail(file)))
    }

    /** The acceptor of the protocol that this store implements. */
    ghost function Model(): Replica
      reads this
    {
      Replica(slots, Log(codec, file), Tail(file) != [], synced)
    }

    function Length(rec: Record): nat {
      |codec.encode(rec)| + 1
    }

    constructor (codec: Codec, disk: Data, ghost survived: nat)
      ensures this.codec == codec && file == disk && slots == map[] && synced == survived
    {
      this.codec := codec;
      file := disk;
      slots := map[];
      synced := survived;
    }

    method Append(rec: Record, io: Io) returns (ok: bool)
      requires Valid()
      modifies this
      ensures Valid() && Appended(Model(), ok) == S.Append(old(Model()), rec, FaultOf(io, Length(rec)))
      ensures ok <==> io.written >= Length(rec) && io.synced
      ensures file == old(file) + if io.written < Length(rec) then codec.encode(rec)[..io.written] else codec.encode(rec) + [NEWLINE]
    {
      hide Lines, Tail, Fragments;
      var b := codec.encode(rec);
      if io.written < |b| + 1 {
        var part := b[..io.written];
        ExtendTail(file, part);
        if io.written > 0 {
          FragmentsGrow(codec, Tail(file), part);
        } else {
          assert file + part == file;
        }
        file := file + part;
        assert Model() == S.Append(old(Model()), rec, FaultOf(io, Length(rec))).after;
        return false;
      }
      LineWritten(codec, file, rec);
      assert file + b + [NEWLINE] == file + (b + [NEWLINE]);
      file := file + b + [NEWLINE];
      if !io.synced { return false; }
      synced := |Lines(file)|;
      slots := Apply(slots, rec);
      ok := true;
    }

    method Promise(slot: nat, b: Ballot, io: Io) returns (x: Slot, ok: bool)
      requires Valid()
      modifies this
      ensures Valid()
      ensures PromiseResult(Model(), x, ok) == S.Promise(old(Model()), slot, b, FaultOf(io, Length(PromiseRecord(slot, b))))
    {
      x := Get(slots, slot);
      if Less(b, x.promised) { return x, false; }
      if x.promised == b { return x, true; }
      ok := Append(PromiseRecord(slot, b), io);
      if ok { x := Get(slots, slot); }
    }

    method Accept(slot: nat, b: Ballot, v: Value, io: Io) returns (ok: bool)
      requires Valid()
      modifies this
      ensures Valid()
      ensures Appended(Model(), ok) == S.Accept(old(Model()), slot, b, v, FaultOf(io, Length(AcceptRecord(slot, b, v))))
    {
      var x := Get(slots, slot);
      if Less(b, x.promised) { return false; }
      if x.hasAccepted && x.accepted == b && x.value != v { return false; }
      ok := Append(AcceptRecord(slot, b, v), io);
    }

    method Commit(slot: nat, v: Value, io: Io) returns (ok: bool)
      requires Valid()
      modifies this
      ensures Valid()
      ensures Appended(Model(), ok) == S.Commit(old(Model()), slot, v, FaultOf(io, Length(CommitRecord(slot, v))))
    {
      var x := Get(slots, slot);
      if x.committed && x.value != v { return false; }
      ok := Append(CommitRecord(slot, v), io);
    }

    /** Reads the file line by line; drops an unterminated last line; refuses a line that is not a record. */
    method Recover() returns (ok: bool)
      requires GoodCodec(codec) && synced <= |Lines(file)|
      modifies this
      ensures ok <==> AllRecords(Log(codec, old(file)))
      ensures ok ==> Valid() && Model() == Replica(Fold(Records(Log(codec, old(file)))), Log(codec, old(file)), false,
                                                   if Tail(old(file)) == [] then old(synced) else |Lines(old(file))|)
      ensures ok ==> old(file) == file + Tail(old(file))
      ensures !ok ==> file == old(file)
    {
      hide Lines, Tail, Fold, IndexOf, Fragments;
      slots := map[];
      var good := 0;
      ghost var all, log, k := Lines(file), Log(codec, file), 0;
      assert Replayed(log, 0, slots) by { NothingReplayed(log); }
      assert Lines(file[..0]) == [] && Tail(file[..0]) == [] by { NoLines(file[..0]); }
      assert file[0..] == file;
      while NEWLINE in file[good..]
        invariant good <= |file| && k <= |all| && file == old(file) && synced == old(synced)
        invariant Lines(file[..good]) == all[..k] && Tail(file[..good]) == []
        invariant Lines(file[good..]) == all[k..] && Tail(file[good..]) == Tail(file)
        invariant Replayed(log, k, slots)
        decreases |file| - good
      {
        var i := IndexOf(file[good..]);
        NextLine(file, good, i, all, k);
        var line := file[good..good + i];
        match codec.decode(line)
        case None =>
          assert log[k] == None;
          return false;
        case Some(rec) =>
          ReplayOne(log, k, slots, rec);
          slots := Apply(slots, rec);
          good := good + i + 1;
          k := k + 1;
      }
      NoLines(file[good..]);
      assert all[k..] == [] && all[..k] == all && log[..k] == log;
      assert |file| == good <==> Tail(file) == [];
      assert file == file[..good] + file[good..];
      if |file| != good {
        file := file[..good];
        synced := |Lines(file)|;
      } else {
        assert file[..good] == file;
      }
      ok := true;
    }

    /** The committed entries, and the last committed slot: for each key, the highest committed slot wins. */
    method Entries() returns (entries: map<string, string>, max: nat)
      ensures forall n: nat :: IsCommitted(slots, n) ==> slots[n].value.key in entries
      ensures forall k <- entries :: exists n: nat :: IsLastWrite(slots, n, k) && entries[k] == slots[n].value.value
      ensures max == 0 || IsCommitted(slots, max)
      ensures forall n: nat :: IsCommitted(slots, n) ==> n <= max
    {
      var ids := Ascending(set n <- slots | slots[n].committed);
      assert forall n :: IsCommitted(slots, n) <==> n in ids;
      entries, max := map[], 0;
      ghost var last: map<string, nat> := map[];
      for i := 0 to |ids|
        invariant entries.Keys == last.Keys
        invariant forall k <- last :: CommittedKey(slots, last[k], k) && entries[k] == slots[last[k]].value.value
        invariant forall j, n :: 0 <= j < i && n == ids[j] ==> IsCommitted(slots, n) && n <= max && slots[n].value.key in last && n <= last[slots[n].value.key]
        invariant forall k, j :: k in last && i <= j < |ids| ==> last[k] < ids[j]
        invariant max == 0 || IsCommitted(slots, max)
      {
        assert IsCommitted(slots, ids[i]) by { assert ids[i] in ids; }
        var x := slots[ids[i]];
        entries := entries[x.value.key := x.value.value];
        last := last[x.value.key := ids[i]];
        if ids[i] > max { max := ids[i]; }
      }
      forall n: nat | IsCommitted(slots, n)
        ensures n <= max && slots[n].value.key in last && n <= last[slots[n].value.key]
      {
        var j :| 0 <= j < |ids| && ids[j] == n;
      }
    }
  }

  predicate IsCommitted(slots: Slots, n: nat) {
    n in slots && slots[n].committed
  }

  predicate CommittedKey(slots: Slots, n: nat, key: string) {
    IsCommitted(slots, n) && slots[n].value.key == key
  }

  ghost predicate IsLastWrite(slots: Slots, n: nat, key: string) {
    CommittedKey(slots, n, key) && forall j: nat :: CommittedKey(slots, j, key) ==> j <= n
  }

  predicate IsLeast(ids: set<nat>, x: nat) {
    x in ids && forall y <- ids :: x <= y
  }

  lemma HasLeast(ids: set<nat>) returns (x: nat)
    requires ids != {}
    ensures IsLeast(ids, x)
  {
    x :| x in ids;
    if ids != {x} {
      var z := HasLeast(ids - {x});
      assert ids == (ids - {x}) + {x};
      x := if x < z then x else z;
    }
  }

  method Ascending(ids: set<nat>) returns (sorted: seq<nat>)
    ensures forall i, j :: 0 <= i < j < |sorted| ==> sorted[i] < sorted[j]
    ensures forall x :: x in ids <==> x in sorted
  {
    sorted := [];
    var rest := ids;
    while rest != {}
      invariant forall i, j :: 0 <= i < j < |sorted| ==> sorted[i] < sorted[j]
      invariant forall x :: x in ids <==> x in sorted || x in rest
      invariant forall i, y :: 0 <= i < |sorted| && y in rest ==> sorted[i] < y
      decreases rest
    {
      ghost var least := HasLeast(rest);
      var x :| x in rest && IsLeast(rest, x);
      assert IsLeast(rest, x);
      sorted := sorted + [x];
      rest := rest - {x};
    }
  }

  /** A whole line reached the file: the log grows by its record, or by a line that does not parse if it
      was glued to the fragments of earlier failures. */
  lemma LineWritten(c: Codec, f: Data, rec: Record)
    requires GoodCodec(c) && (Tail(f) == [] || Fragments(c, Tail(f)))
    ensures Log(c, f + c.encode(rec) + [NEWLINE]) == Log(c, f) + [if Tail(f) != [] then None else Some(rec)]
    ensures Lines(f + c.encode(rec) + [NEWLINE]) == Lines(f) + [Tail(f) + c.encode(rec)]
    ensures Tail(f + c.encode(rec) + [NEWLINE]) == []
  {
    ExtendTail(f, c.encode(rec));
    EndTail(f + c.encode(rec));
    if Tail(f) == [] { assert Tail(f) + c.encode(rec) == c.encode(rec); }
  }

  lemma NextLine(f: Data, good: nat, i: nat, all: seq<Data>, k: nat)
    requires good <= |f| && NEWLINE in f[good..] && i == IndexOf(f[good..])
    requires k <= |all| && Lines(f[..good]) == all[..k] && Tail(f[..good]) == []
    requires Lines(f[good..]) == all[k..]
    ensures k < |all| && good + i + 1 <= |f| && f[good..good + i] == all[k]
    ensures Lines(f[..good + i + 1]) == all[..k + 1] && Tail(f[..good + i + 1]) == []
    ensures Lines(f[good + i + 1..]) == all[k + 1..] && Tail(f[good + i + 1..]) == Tail(f[good..])
  {
    hide Lines, Tail;
    var line, rest := Decompose(f[good..]);
    assert rest == f[good + i + 1..];
    assert f[..good + i + 1] == f[..good] + line + [NEWLINE];
    ExtendTail(f[..good], line);
    EndTail(f[..good] + line);
    assert all[k..][0] == line && all[k..][1..] == all[k + 1..];
    assert [] + line == line && f[good..good + i] == line;
    assert all[..k + 1] == all[..k] + [all[k]];
  }

  /** The first `k` lines are records, and `slots` is what they amount to. */
  ghost predicate Replayed(log: seq<Line>, k: nat, slots: Slots) {
    k <= |log| && AllRecords(log[..k]) && slots == Fold(Records(log[..k]))
  }

  lemma NothingReplayed(log: seq<Line>)
    ensures Replayed(log, 0, map[])
  {
  }

  lemma ReplayOne(log: seq<Line>, k: nat, slots: Slots, rec: Record)
    requires Replayed(log, k, slots) && k < |log| && log[k] == Some(rec)
    ensures Replayed(log, k + 1, Apply(slots, rec))
  {
    assert log[..k + 1] == log[..k] + [Some(rec)];
    assert Records(log[..k + 1]) == Records(log[..k]) + [rec];
    FoldSnoc(Records(log[..k]), rec);
  }

  /** A crash that cuts the file after `n` bytes, no earlier than its synced lines, and a restart from what is left:
      it succeeds exactly when the protocol's restart does, and gives the same acceptor. */
  method CrashAndReopen(was: Store, n: nat) returns (ok: bool, store: Store)
    requires was.Valid() && EndOfLine(was.file, was.synced) <= n <= |was.file|
    ensures fresh(store) && store.codec == was.codec
    ensures ok ==> store.Valid()
    ensures var k := |Lines(was.file[..n])|;
            && was.synced <= k <= |was.Model().log|
            && (ok <==> CanRestart(was.Model(), k, was.synced))
            && (ok ==> exists s: nat :: CanRestart(was.Model(), k, s) && store.Model() == Restart(was.Model(), k, s))
  {
    ghost var before := was.Model();
    ghost var k := |Lines(was.file[..n])|;
    CutIsRestart(was.codec, was.file, was.synced, n);
    store := new Store(was.codec, was.file[..n], was.synced);
    ok := store.Recover();
    assert Log(was.codec, was.file[..n]) == before.log[..k];
    if ok {
      assert CanRestart(before, k, store.synced) && store.Model() == Restart(before, k, store.synced);
    }
  }
}
