/** What a replica answers to a status request, and what `recover` may do with the answers. */
module PaxosStatus {
  import opened Options
  import opened PaxosStorage
  import opened PaxosProtocol
  import PaxosStore

  /** All slots of the replica, in ascending order, each as it stands. */
  method StatusEnvelope(slots: Slots) returns (states: seq<SlotState>)
    ensures IsSnapshot(states, slots)
    ensures |states| == |slots|
  {
    var ids := PaxosStore.Ascending(slots.Keys);
    states := [];
    for i := 0 to |ids|
      invariant |states| == i
      invariant forall j :: 0 <= j < i ==> ids[j] in slots && states[j] == StateOf(ids[j], slots[ids[j]])
    {
      assert ids[i] in ids;
      states := states + [StateOf(ids[i], slots[ids[i]])];
    }
    forall n | n in slots ensures StateOf(n, slots[n]) in states {
      assert n in ids;
      var j :| 0 <= j < |ids| && ids[j] == n;
      assert states[j] in states;
    }
    AsManyAsKeys(ids, slots.Keys);
  }

  lemma {:induction false} AsManyAsKeys(ids: seq<nat>, keys: set<nat>)
    requires forall i, j :: 0 <= i < j < |ids| ==> ids[i] < ids[j]
    requires forall x :: x in keys <==> x in ids
    ensures |ids| == |keys|
  {
    if ids == [] {
      assert keys == {};
    } else {
      var n := |ids| - 1;
      assert ids == ids[..n] + [ids[n]];
      AsManyAsKeys(ids[..n], keys - {ids[n]});
    }
  }

  lemma EmptyTable(a: seq<SlotState>, m: Slots)
    requires IsSnapshot(a, m)
    ensures a == [] <==> forall n :: n !in m
  {
    if a != [] { assert a[0] in a; }
  }

  /** The answer is determined by what the replica holds: there is exactly one. */
  lemma {:induction false} OneSnapshot(a: seq<SlotState>, b: seq<SlotState>, m: Slots)
    requires IsSnapshot(a, m) && IsSnapshot(b, m)
    ensures a == b
  {
    hide IsSnapshot;
    EmptyTable(a, m);
    EmptyTable(b, m);
    if a != [] && b != [] {
      var x, y := a[|a| - 1], b[|b| - 1];
      LastIsLargest(a, m);
      LastIsLargest(b, m);
      assert x.slot == y.slot;
      OneSnapshot(a[..|a| - 1], b[..|b| - 1], m - {x.slot});
      assert a == a[..|a| - 1] + [x] && b == b[..|b| - 1] + [y];
    }
  }

  lemma LastIsLargest(a: seq<SlotState>, m: Slots)
    requires a != [] && IsSnapshot(a, m)
    ensures var last := a[|a| - 1]; last.slot in m && last == StateOf(last.slot, m[last.slot])
                                    && (forall n <- m :: n <= last.slot) && IsSnapshot(a[..|a| - 1], m - {last.slot})
  {
    var k := |a| - 1;
    assert a[k] in a;
    forall n | n in m ensures n <= a[k].slot {
      var j :| 0 <= j < |a| && a[j] == StateOf(n, m[n]);
    }
    FrontIsSnapshot(a, m);
  }

  lemma FrontIsListed(a: seq<SlotState>, m: Slots, front: seq<SlotState>, less: Slots)
    requires a != [] && IsSnapshot(a, m) && front == a[..|a| - 1] && less == m - {a[|a| - 1].slot}
    ensures forall x <- front :: x.slot in less && x == StateOf(x.slot, less[x.slot])
  {
    hide StateOf;
    forall x | x in front ensures x.slot in less && x == StateOf(x.slot, less[x.slot]) {
      var j :| 0 <= j < |front| && front[j] == x;
      assert a[j] in a && a[j].slot < a[|a| - 1].slot;
    }
  }

  lemma FrontIsComplete(a: seq<SlotState>, m: Slots, front: seq<SlotState>, less: Slots)
    requires a != [] && IsSnapshot(a, m) && front == a[..|a| - 1] && less == m - {a[|a| - 1].slot}
    ensures forall n <- less :: StateOf(n, less[n]) in front
  {
    forall n | n in less ensures StateOf(n, less[n]) in front {
      var j :| 0 <= j < |a| && a[j] == StateOf(n, m[n]);
      assert front[j] == a[j];
    }
  }

  lemma FrontIsSnapshot(a: seq<SlotState>, m: Slots)
    requires a != [] && IsSnapshot(a, m)
    ensures IsSnapshot(a[..|a| - 1], m - {a[|a| - 1].slot})
  {
    hide StateOf;
    var front, less := a[..|a| - 1], m - {a[|a| - 1].slot};
    FrontIsListed(a, m, front, less);
    FrontIsComplete(a, m, front, less);
    forall i, j | 0 <= i < j < |front| ensures front[i].slot < front[j].slot { assert a[i].slot < a[j].slot; }
  }

  /** A `recover` call that has the answers of two replicas is a step of the protocol, and so is each ballot it goes on to ask
      for: to re-decide a slot from the state it selected, and to propose its caller's value after the end of the log. */
  lemma RecoveryIsAllowed(s: System, query: nat, good: seq<Status>, end: nat, selected: map<nat, SlotState>) returns (t: System)
    requires query in s.queries && query !in s.plans && |good| >= 2
    requires forall i :: 0 <= i < |good| ==> good[i] in s.statuses && good[i].query == query
    requires forall i, j :: 0 <= i < j < |good| ==> good[i].from != good[j].from
    requires IsEndOfLog(Reported(good), end)
    requires forall id <- selected :: 1 <= id <= end && IsSelected(Reported(good), id, selected[id])
    ensures Next(s, PlanSlots(query, good, end), t) && query in t.queries
    ensures forall id <- selected :: CanPrepare(t, id, selected[id].value, Redecided(query))
    ensures t.queries[query].put.Some? ==> CanPrepare(t, end + 1, t.queries[query].put.value, OwnValue(query))
  {
    hide IsEndOfLog, IsSelected, Reported;
    t := s.(plans := s.plans[query := Plan(Reported(good), end)]);
    forall id | id in selected ensures SelectsValue(Reported(good), id, selected[id].value) {
      SelectedIsReported(Reported(good), id, selected[id]);
    }
  }

  lemma SelectedIsReported(all: seq<SlotState>, id: nat, x: SlotState)
    requires IsSelected(all, id, x)
    ensures x in all && SelectsValue(all, id, x.value)
  {
    hide Wins;
  }
}
