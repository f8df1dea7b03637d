/** Identifiers of events: no two events ever share one, so that "prior" names exactly one event. */
module BakeryIds {
  import opened BakeryShelf
  import opened Bakery

  predicate Distinct(es: seq<Event>) {
    forall i, j :: 0 <= i < j < |es| ==> es[i].id != es[j].id
  }

  predicate Apart(es: seq<Event>, more: seq<Event>) {
    forall e <- es, f <- more :: e.id != f.id
  }

  lemma DistinctGrows(es: seq<Event>, more: seq<Event>)
    requires Distinct(es) && Distinct(more) && Apart(es, more)
    ensures Distinct(es + more)
  {
    var all := es + more;
    forall i, j | 0 <= i < j < |all| ensures all[i].id != all[j].id {
      if i < |es| <= j { assert all[i] in es && all[j] in more; }
    }
  }

  predicate GivenAway(kind: Kind) {
    kind == CharityTransfer || kind == DonationRecorded
  }

  predicate OffShelf(shelves: seq<Shelf>, b: BatchId) {
    forall p, i :: 0 <= p < |shelves| && 0 <= i < |shelves[p]| ==> shelves[p][i].batch != b
  }

  /** Each lot is the one batch of its product from its day, and was baked on one of the first `made` days. */
  predicate Numbered(s: Shelf, p: nat, made: nat) {
    && (forall i :: 0 <= i < |s| ==> s[i].batch == BatchId(s[i].bakedDay, p) && s[i].bakedDay < made)
    && (forall i, j :: 0 <= i < j < |s| ==> s[i].bakedDay < s[j].bakedDay)
  }

  predicate AllNumbered(shelves: seq<Shelf>, made: nat) {
    forall p: nat :: p < |shelves| ==> Numbered(shelves[p], p, made)
  }

  /** Identifiers that may be taken when bread of `made` days was baked, `paid` days were paid and `sold` orders served. */
  predicate Issued(id: EventId, shelves: seq<Shelf>, made: nat, paid: nat, sold: nat) {
    match id.subject
    case OfOrder(n) => n <= sold
    case OfShift(d, _) => d < paid
    case OfBatch(b) => b.day < made && (GivenAway(id.kind) ==> OffShelf(shelves, b))
  }

  predicate AllIssued(es: seq<Event>, shelves: seq<Shelf>, made: nat, paid: nat, sold: nat) {
    forall e <- es :: Issued(e.id, shelves, made, paid, sold)
  }

  /** No identifier twice, and those still to come are free. */
  predicate Tagged(es: seq<Event>, shelves: seq<Shelf>, made: nat, paid: nat, sold: nat) {
    Distinct(es) && AllNumbered(shelves, made) && AllIssued(es, shelves, made, paid, sold)
  }

  /** Lots that leave, or lose units, free the shelves of their batches only. */
  ghost predicate Fewer(before: seq<Shelf>, after: seq<Shelf>) {
    |after| == |before| && forall b :: OffShelf(before, b) ==> OffShelf(after, b)
  }

  lemma IssuedStays(es: seq<Event>, before: seq<Shelf>, after: seq<Shelf>, made: nat, paid: nat, sold: nat, paid': nat, sold': nat)
    requires AllIssued(es, before, made, paid, sold) && Fewer(before, after) && paid <= paid' && sold <= sold'
    ensures AllIssued(es, after, made, paid', sold')
  {
    hide OffShelf, GivenAway;
    forall e | e in es ensures Issued(e.id, after, made, paid', sold') { assert Issued(e.id, before, made, paid, sold); }
  }

  lemma IssuedGrows(es: seq<Event>, more: seq<Event>, shelves: seq<Shelf>, made: nat, paid: nat, sold: nat)
    requires AllIssued(es, shelves, made, paid, sold) && AllIssued(more, shelves, made, paid, sold)
    ensures AllIssued(es + more, shelves, made, paid, sold)
  {
    hide Issued;
  }

  // ----- what leaves a shelf -----

  lemma FrontLeaves(shelves: seq<Shelf>, p: nat, made: nat)
    requires AllNumbered(shelves, made) && p < |shelves| && shelves[p] != []
    ensures var after := shelves[p := shelves[p][1..]];
            Fewer(shelves, after) && AllNumbered(after, made) && OffShelf(after, shelves[p][0].batch)
  {
    var after := shelves[p := shelves[p][1..]];
    assert Numbered(shelves[p], p, made);
    forall q: nat | q < |after| ensures Numbered(after[q], q, made) { assert Numbered(shelves[q], q, made); }
    forall b | OffShelf(shelves, b) ensures OffShelf(after, b) {
      forall i | 0 <= i < |after[p]| ensures after[p][i].batch != b { assert after[p][i] == shelves[p][i + 1]; }
    }
    forall q, i | 0 <= q < |after| && 0 <= i < |after[q]| ensures after[q][i].batch != shelves[p][0].batch {
      if q == p { assert after[p][i] == shelves[p][i + 1]; } else { assert Numbered(shelves[q], q, made); }
    }
  }

  lemma DonationTagged(es: seq<Event>, shelves: seq<Shelf>, p: nat, day: nat, d: nat, made: nat, paid: nat, sold: nat)
    requires Tagged(es, shelves, made, paid, sold) && p < |shelves| && shelves[p] != []
    ensures Tagged(es + Donation(shelves[p][0], day, d), shelves[p := shelves[p][1..]], made, paid, sold)
  {
    var lot, after := shelves[p][0], shelves[p := shelves[p][1..]];
    var more := Donation(lot, day, d);
    assert Numbered(shelves[p], p, made);
    FrontLeaves(shelves, p, made);
    IssuedStays(es, shelves, after, made, paid, sold, paid, sold);
    forall f | f in more ensures Issued(f.id, after, made, paid, sold) {}
    IssuedGrows(es, more, after, made, paid, sold);
    forall e, f | e in es && f in more ensures e.id != f.id {
      assert Issued(e.id, shelves, made, paid, sold);
    }
    DistinctGrows(es, more);
  }

  lemma EmptyLotTagged(es: seq<Event>, shelves: seq<Shelf>, p: nat, made: nat, paid: nat, sold: nat)
    requires Tagged(es, shelves, made, paid, sold) && p < |shelves| && shelves[p] != []
    ensures Tagged(es, shelves[p := shelves[p][1..]], made, paid, sold)
  {
    FrontLeaves(shelves, p, made);
    IssuedStays(es, shelves, shelves[p := shelves[p][1..]], made, paid, sold, paid, sold);
  }

  // ----- sales -----

  lemma ReservedFewer(shelves: seq<Shelf>, p: nat, q: nat, made: nat)
    requires AllNumbered(shelves, made) && p < |shelves|
    ensures var after := shelves[p := Trimmed(Drawn(shelves[p], q))]; Fewer(shelves, after) && AllNumbered(after, made)
  {
    hide Trimmed, Drawn;
    var k := Remnant(shelves[p], q);
    var s, r := shelves[p], Trimmed(Drawn(shelves[p], q));
    var after := shelves[p := r];
    assert Numbered(s, p, made);
    forall i | 0 <= i < |r| ensures r[i].batch == s[k + i].batch && r[i].bakedDay == s[k + i].bakedDay {}
    forall x: nat | x < |after| ensures Numbered(after[x], x, made) { assert Numbered(shelves[x], x, made); }
  }

  lemma ServedTagged(es: seq<Event>, shelves: seq<Shelf>, es': seq<Event>, shelves': seq<Shelf>, order: nat, at: int, o: Order, made: nat, paid: nat)
    requires order > 0 && Tagged(es, shelves, made, paid, order - 1) && Served(es, shelves, es', shelves', order, at, o)
    ensures Tagged(es', shelves', made, paid, order)
  {
    hide Units, Trimmed, Drawn, Draws, OffShelf, Fewer, Numbered;
    SelfFewer(shelves);
    ReservedFewer(shelves, o.product, o.quantity, made);
    IssuedStays(es, shelves, shelves', made, paid, order - 1, paid, order);
    var more := es'[|es|..];
    assert es' == es + more;
    forall f | f in more ensures f.id.subject == OfOrder(order) {}
    IssuedGrows(es, more, shelves', made, paid, order);
    forall e, f | e in es && f in more ensures e.id != f.id {
      assert Issued(e.id, shelves, made, paid, order - 1);
    }
    DistinctGrows(es, more);
  }

  lemma SelfFewer(shelves: seq<Shelf>)
    ensures Fewer(shelves, shelves)
  {
  }

  // ----- the morning -----

  /** In the morning of day `made`: the products before `slot` are baked and loaded, those in `unloaded` are delivered. */
  predicate IssuedSoFar(id: EventId, shelves: seq<Shelf>, made: nat, paid: nat, sold: nat, slot: nat, unloaded: set<nat>) {
    || Issued(id, shelves, made, paid, sold)
    || (id.subject.OfBatch? && id.subject.batch.day == made && !GivenAway(id.kind)
        && if id.kind == ShipmentDequeued then id.subject.batch.product in unloaded else id.subject.batch.product < slot)
  }

  predicate TaggedSoFar(es: seq<Event>, shelves: seq<Shelf>, made: nat, paid: nat, sold: nat, slot: nat, unloaded: set<nat>) {
    && Distinct(es) && AllNumbered(shelves, made)
    && forall e <- es :: IssuedSoFar(e.id, shelves, made, paid, sold, slot, unloaded)
  }

  lemma MorningBegins(es: seq<Event>, shelves: seq<Shelf>, made: nat, paid: nat, sold: nat)
    requires Tagged(es, shelves, made, paid, sold)
    ensures TaggedSoFar(es, shelves, made, paid, sold, 0, {})
  {
    hide Issued;
  }

  /** More events of a batch of this morning, of kinds not used for it yet. */
  lemma MorningGrows(es: seq<Event>, more: seq<Event>, shelves: seq<Shelf>, made: nat, paid: nat, sold: nat, slot: nat, unloaded: set<nat>,
                     slot': nat, unloaded': set<nat>)
    requires TaggedSoFar(es, shelves, made, paid, sold, slot, unloaded) && slot <= slot' && unloaded <= unloaded'
    requires Distinct(more)
    requires forall f <- more :: && !IssuedSoFar(f.id, shelves, made, paid, sold, slot, unloaded)
                                 && IssuedSoFar(f.id, shelves, made, paid, sold, slot', unloaded')
    ensures TaggedSoFar(es + more, shelves, made, paid, sold, slot', unloaded')
  {
    hide Issued;
    forall e, f | e in es && f in more ensures e.id != f.id {
      assert IssuedSoFar(e.id, shelves, made, paid, sold, slot, unloaded);
    }
    DistinctGrows(es, more);
    forall e | e in es + more ensures IssuedSoFar(e.id, shelves, made, paid, sold, slot', unloaded') {
      if e in es { assert IssuedSoFar(e.id, shelves, made, paid, sold, slot, unloaded); }
    }
  }

  lemma MorningEnds(es: seq<Event>, before: seq<Shelf>, after: seq<Shelf>, made: nat, paid: nat, sold: nat, slot: nat, unloaded: set<nat>)
    requires TaggedSoFar(es, before, made, paid, sold, slot, unloaded)
    requires |after| == |before|
    requires forall p: nat :: p < |before| ==>
               && |after[p]| == |before[p]| + 1 && before[p] <= after[p]
               && after[p][|before[p]|].batch == BatchId(made, p) && after[p][|before[p]|].bakedDay == made
    ensures Tagged(es, after, made + 1, paid, sold)
  {
    forall p: nat | p < |after| ensures Numbered(after[p], p, made + 1) {
      assert Numbered(before[p], p, made);
      forall i | 0 <= i < |before[p]| ensures after[p][i] == before[p][i] {}
    }
    forall e | e in es ensures Issued(e.id, after, made + 1, paid, sold) {
      assert IssuedSoFar(e.id, before, made, paid, sold, slot, unloaded);
      if e.id.subject.OfBatch? && GivenAway(e.id.kind) {
        var b := e.id.subject.batch;
        forall p, i | 0 <= p < |after| && 0 <= i < |after[p]| ensures after[p][i].batch != b {
          if i < |before[p]| { assert after[p][i] == before[p][i]; }
        }
      }
    }
  }

  // ----- the file -----

  predicate ByTime(es: seq<Event>) {
    forall i, j :: 0 <= i < j < |es| ==> es[i].time <= es[j].time
  }

  /** Every event stands after the one event with each identifier it names as prior. */
  predicate PriorsFirst(es: seq<Event>) {
    forall j, id :: 0 <= j < |es| && id in es[j].prior ==> ComesBefore(es, id, j)
  }

  /** There is exactly one event with this identifier, and it stands before position `j`. */
  predicate ComesBefore(es: seq<Event>, id: EventId, j: nat) {
    && (exists i :: 0 <= i < |es| && es[i].id == id)
    && forall i :: 0 <= i < |es| && es[i].id == id ==>
                     i < j && forall k :: 0 <= k < |es| && es[k].id == id ==> k == i
  }

  /** Sorted by time, whatever decides between events of one time, every event comes after all its priors. */
  lemma PriorsComeFirst(es: seq<Event>, out: seq<Event>)
    requires Causal(es) && Distinct(es) && ByTime(out) && multiset(out) == multiset(es)
    ensures Distinct(out) && PriorsFirst(out)
  {
    Shuffled(es, out);
    forall j: nat, id | j < |out| && id in out[j].prior ensures ComesBefore(out, id, j) {
      var e := out[j];
      assert e in multiset(es);
      var f :| f in es && f.id == id && f.time < e.time;
      assert f in multiset(out);
      var i :| 0 <= i < |out| && out[i] == f;
      forall k | 0 <= k < |out| && out[k].id == id ensures k == i { assert out[k].id == out[i].id; }
    }
  }

  lemma TakeOut(es: seq<Event>, e: Event) returns (a: seq<Event>, b: seq<Event>)
    requires e in es
    ensures es == a + [e] + b && multiset(a + b) == multiset(es) - multiset{e}
  {
    var i :| 0 <= i < |es| && es[i] == e;
    a, b := es[..i], es[i + 1..];
    assert es == a + [e] + b;
  }

  /** What a reordering keeps: how many units and events there are of each kind, and that no identifier stands twice. */
  lemma {:induction false} Shuffled(es: seq<Event>, out: seq<Event>)
    requires multiset(out) == multiset(es)
    ensures forall kind, product :: Tally(out, kind, product) == Tally(es, kind, product)
    ensures forall kind :: Count(out, kind) == Count(es, kind)
    ensures Distinct(es) ==> Distinct(out)
    decreases |out|
  {
    if out == [] {
      assert |multiset(es)| == 0;
    } else {
      var front, e := out[..|out| - 1], out[|out| - 1];
      assert out == front + [e];
      assert e in multiset(es);
      var a, b := TakeOut(es, e);
      Shuffled(a + b, front);
      forall kind, product ensures Tally(out, kind, product) == Tally(es, kind, product) {
        TallyOfConcat(a + [e], b, kind, product);
        TallyOfConcat(a, [e], kind, product);
        TallyOfConcat(a, b, kind, product);
        OneTally(e, kind, product);
      }
      forall kind ensures Count(out, kind) == Count(es, kind) {
        CountOfConcat(a + [e], b, kind);
        CountOfConcat(a, [e], kind);
        CountOfConcat(a, b, kind);
        assert [e][..0] == [];
      }
      if Distinct(es) { DistinctWithout(a, e, b, front); }
    }
  }

  lemma DistinctWithout(a: seq<Event>, e: Event, b: seq<Event>, front: seq<Event>)
    requires Distinct(a + [e] + b) && multiset(front) == multiset(a + b)
    requires Distinct(a + b) ==> Distinct(front)
    ensures Distinct(front + [e])
  {
    var es := a + [e] + b;
    var k := |a|;
    forall i | 0 <= i < |a + b| ensures (a + b)[i] == (if i < k then es[i] else es[i + 1]) && (a + b)[i].id != e.id {
      assert es[k] == e;
    }
    forall f | f in front ensures f.id != e.id { assert f in multiset(a + b); }
    forall i, j | 0 <= i < j < |a + b| ensures (a + b)[i].id != (a + b)[j].id {
      assert es[if i < k then i else i + 1].id != es[if j < k then j else j + 1].id;
    }
    DistinctGrows(front, [e]);
  }

  /** Reordering keeps everything said of a history but the order itself. */
  lemma SoundShuffled(es: seq<Event>, out: seq<Event>, shelves: seq<Shelf>)
    requires Sound(es, shelves) && multiset(out) == multiset(es)
    ensures Sound(out, shelves)
  {
    hide Tally, Count, Distinct, DrawsFreshLots;
    Shuffled(es, out);
    forall e ensures e in out <==> e in es { assert e in multiset(out) <==> e in multiset(es); }
    forall e, id | e in out && id in e.prior ensures Happened(out, id, e.time) {
      assert Happened(es, id, e.time);
      var f :| f in es && f.id == id && f.time < e.time;
      assert f in out;
    }
  }
}
