/** The books of the bakery: every unit of every batch is accounted for, and every sale draws on batches that were stocked. */
module BakeryLedger {
  import opened Arithmetic
  import opened BakeryShelf
  import opened Bakery
  import opened BakeryIds

  /** Units drawn from one batch. */
  function DrawnOf(draws: seq<Draw>, b: BatchId): nat {
    if draws == [] then 0 else (if draws[0].lot.batch == b then draws[0].units else 0) + DrawnOf(draws[1..], b)
  }

  /** Units drawn from one batch by all events. */
  function TakenFrom(es: seq<Event>, b: BatchId): nat {
    if es == [] then 0 else TakenFrom(es[..|es| - 1], b) + DrawnOf(es[|es| - 1].draws, b)
  }

  /** Units of one batch in events of one kind about that batch. */
  function BatchTally(es: seq<Event>, kind: Kind, b: BatchId): nat {
    if es == [] then 0
    else BatchTally(es[..|es| - 1], kind, b) + if es[|es| - 1].id == EventId(OfBatch(b), kind) then es[|es| - 1].units else 0
  }

  /** Units of one batch on a shelf. */
  function LeftOn(s: Shelf, b: BatchId): nat {
    if s == [] then 0 else (if s[0].batch == b then s[0].units else 0) + LeftOn(s[1..], b)
  }

  /** Units of one batch on the shelf of its product, where all its lots are. */
  function Left(shelves: seq<Shelf>, b: BatchId): nat {
    if b.product < |shelves| then LeftOn(shelves[b.product], b) else 0
  }

  function StockedId(b: BatchId): EventId {
    EventId(OfBatch(b), ShipmentDequeued)
  }

  predicate BatchBalances(es: seq<Event>, shelves: seq<Shelf>, b: BatchId) {
    BatchTally(es, ShipmentDequeued, b) == TakenFrom(es, b) + BatchTally(es, DonationRecorded, b) + Left(shelves, b)
  }

  /** Of every batch, the units stocked are those drawn by sales, those given away and those left. */
  ghost predicate Ledger(es: seq<Event>, shelves: seq<Shelf>) {
    forall b :: BatchBalances(es, shelves, b)
  }

  /** A reservation names lots that amount to its units, of its product, each stocked before and giving no more than it had. */
  predicate WellReserved(es: seq<Event>, e: Event) {
    && Total(e.draws) == e.units && e.units > 0
    && forall d <- e.draws :: 1 <= d.units <= d.lot.units && d.lot.batch.product == e.product && Happened(es, StockedId(d.lot.batch), e.time)
  }

  predicate Reservations(es: seq<Event>) {
    forall e <- es :: e.id.kind == InventoryReserved ==> WellReserved(es, e)
  }

  /** An event of this kind about the same order, product and units. */
  predicate Matched(es: seq<Event>, e: Event, kind: Kind) {
    exists f <- es :: f.id == EventId(e.id.subject, kind) && f.product == e.product && f.units == e.units
  }

  /** Nothing is sold that was not reserved, and what is reserved is sold. */
  predicate SoldAsReserved(es: seq<Event>) {
    forall e <- es ::
      && (e.id.kind == SaleCompleted ==> Matched(es, e, InventoryReserved))
      && (e.id.kind == InventoryReserved ==> Matched(es, e, SaleCompleted))
  }

  /** A donation is of a batch past its days, and of what went to the charity. */
  predicate GivenAway(es: seq<Event>, e: Event) {
    && e.id.subject.OfBatch? && e.units > 0 && Matched(es, e, CharityTransfer)
    && var b := e.id.subject.batch;
       e.product == b.product < |PRODUCTS| && (b.day + PRODUCTS[b.product].freshness) * DAY <= e.time
  }

  predicate Donations(es: seq<Event>) {
    forall e <- es :: e.id.kind == DonationRecorded ==> GivenAway(es, e)
  }

  /** The lot is on its product's shelf, and came there before the shop opened on the day it was baked. */
  predicate StockedLot(es: seq<Event>, lot: Lot, p: nat) {
    && lot.batch.product == p && Happened(es, StockedId(lot.batch), lot.bakedDay * DAY + OPENING)
    && lot.batch.day == lot.bakedDay && p < |PRODUCTS| && lot.freshness == PRODUCTS[p].freshness
  }

  predicate OnRecord(es: seq<Event>, shelves: seq<Shelf>) {
    forall p: nat, i: nat :: p < |shelves| && i < |shelves[p]| ==> StockedLot(es, shelves[p][i], p)
  }

  ghost predicate Booked(es: seq<Event>, shelves: seq<Shelf>) {
    Ledger(es, shelves) && Reservations(es) && SoldAsReserved(es) && Donations(es) && OnRecord(es, shelves)
  }

  /** All that is kept over the days. */
  ghost predicate Kept(es: seq<Event>, shelves: seq<Shelf>) {
    Sound(es, shelves) && Booked(es, shelves)
  }

  // ----- sums -----

  lemma {:induction false} TakenOfConcat(a: seq<Event>, b: seq<Event>, x: BatchId)
    ensures TakenFrom(a + b, x) == TakenFrom(a, x) + TakenFrom(b, x)
  {
    if b == [] {
      assert a + b == a;
    } else {
      assert (a + b)[..|a + b| - 1] == a + b[..|b| - 1];
      TakenOfConcat(a, b[..|b| - 1], x);
    }
  }

  lemma {:induction false} BatchOfConcat(a: seq<Event>, b: seq<Event>, kind: Kind, x: BatchId)
    ensures BatchTally(a + b, kind, x) == BatchTally(a, kind, x) + BatchTally(b, kind, x)
  {
    if b == [] {
      assert a + b == a;
    } else {
      assert (a + b)[..|a + b| - 1] == a + b[..|b| - 1];
      BatchOfConcat(a, b[..|b| - 1], kind, x);
    }
  }

  lemma {:induction false} NothingTaken(es: seq<Event>, x: BatchId)
    requires forall e <- es :: e.draws == []
    ensures TakenFrom(es, x) == 0
  {
    if es != [] {
      assert es[|es| - 1] in es;
      NothingTaken(es[..|es| - 1], x);
    }
  }

  lemma {:induction false} NoneOfBatch(es: seq<Event>, kind: Kind, x: BatchId)
    requires forall e <- es :: e.id != EventId(OfBatch(x), kind)
    ensures BatchTally(es, kind, x) == 0
  {
    if es != [] {
      assert es[|es| - 1] in es;
      NoneOfBatch(es[..|es| - 1], kind, x);
    }
  }

  lemma OneOfBatch(e: Event, kind: Kind, x: BatchId)
    ensures BatchTally([e], kind, x) == if e.id == EventId(OfBatch(x), kind) then e.units else 0
    ensures TakenFrom([e], x) == DrawnOf(e.draws, x)
  {
    assert [e][..0] == [];
  }

  // ----- a reservation on its shelf -----

  /** What a reservation takes of a batch is what the shelf has less of it. */
  lemma {:induction false} DrawnIsMissing(s: Shelf, q: nat, b: BatchId)
    ensures DrawnOf(Draws(s, q), b) + LeftOn(Drawn(s, q), b) == LeftOn(s, b)
  {
    if s != [] {
      var take := Min(s[0].units, q);
      DrawnIsMissing(s[1..], q - take, b);
      var first, rest := s[0].(units := s[0].units - take), Drawn(s[1..], q - take);
      assert ([first] + rest)[1..] == rest;
      if q == 0 {
        NothingDrawn(s[1..]);
      } else if take > 0 {
        var draws := Draws(s[1..], q - take);
        assert ([Draw(s[0], take)] + draws)[1..] == draws;
      }
    }
  }

  lemma NothingDrawn(s: Shelf)
    ensures Draws(s, 0) == []
  {
  }

  lemma {:induction false} TrimmedLeft(s: Shelf, b: BatchId)
    ensures LeftOn(Trimmed(s), b) == LeftOn(s, b)
  {
    if s != [] && s[0].units == 0 { TrimmedLeft(s[1..], b); }
  }

  lemma {:induction false} DrawsAreLots(s: Shelf, q: nat)
    ensures forall d <- Draws(s, q) :: d.lot in s && 1 <= d.units <= d.lot.units
  {
    if s != [] && q > 0 {
      var take := Min(s[0].units, q);
      DrawsAreLots(s[1..], q - take);
    }
  }

  lemma {:induction false} NotDrawnFrom(draws: seq<Draw>, b: BatchId)
    requires forall d <- draws :: d.lot.batch != b
    ensures DrawnOf(draws, b) == 0
  {
    if draws != [] {
      assert draws[0] in draws;
      NotDrawnFrom(draws[1..], b);
    }
  }

  lemma {:induction false} LeftSnoc(s: Shelf, lot: Lot, b: BatchId)
    ensures LeftOn(s + [lot], b) == LeftOn(s, b) + if lot.batch == b then lot.units else 0
  {
    if s == [] {
      assert [lot][1..] == [];
    } else {
      assert (s + [lot])[1..] == s[1..] + [lot];
      LeftSnoc(s[1..], lot, b);
    }
  }

  // ----- more events -----

  lemma ReservationsGrow(es: seq<Event>, more: seq<Event>)
    requires Reservations(es) && forall e <- more :: e.id.kind == InventoryReserved ==> WellReserved(es + more, e)
    ensures Reservations(es + more)
  {
    hide Happened;
    forall e | e in es + more && e.id.kind == InventoryReserved ensures WellReserved(es + more, e) {
      if e in es {
        assert WellReserved(es, e);
        forall d | d in e.draws ensures Happened(es + more, StockedId(d.lot.batch), e.time) {
          HappenedLater(es, more, StockedId(d.lot.batch), e.time);
        }
      }
    }
  }

  lemma MatchedLater(es: seq<Event>, more: seq<Event>, e: Event, kind: Kind)
    requires Matched(es, e, kind) || Matched(more, e, kind)
    ensures Matched(es + more, e, kind)
  {
    if Matched(es, e, kind) {
      var f :| f in es && f.id == EventId(e.id.subject, kind) && f.product == e.product && f.units == e.units;
      assert f in es + more;
    } else {
      var f :| f in more && f.id == EventId(e.id.subject, kind) && f.product == e.product && f.units == e.units;
      assert f in es + more;
    }
  }

  lemma DonationsGrow(es: seq<Event>, more: seq<Event>)
    requires Donations(es) && Donations(more)
    ensures Donations(es + more)
  {
    hide Matched;
    forall e | e in es + more && e.id.kind == DonationRecorded ensures GivenAway(es + more, e) {
      if e in es { assert GivenAway(es, e); } else { assert GivenAway(more, e); }
      MatchedLater(es, more, e, CharityTransfer);
    }
  }

  lemma SoldGrows(es: seq<Event>, more: seq<Event>)
    requires SoldAsReserved(es) && SoldAsReserved(more)
    ensures SoldAsReserved(es + more)
  {
    hide Matched;
    forall e | e in es + more
      ensures e.id.kind == SaleCompleted ==> Matched(es + more, e, InventoryReserved)
      ensures e.id.kind == InventoryReserved ==> Matched(es + more, e, SaleCompleted)
    {
      if e in es || e in more {
        if e.id.kind == SaleCompleted { MatchedLater(es, more, e, InventoryReserved); }
        if e.id.kind == InventoryReserved { MatchedLater(es, more, e, SaleCompleted); }
      }
    }
  }

  lemma StockedLater(es: seq<Event>, more: seq<Event>, lot: Lot, p: nat)
    requires StockedLot(es, lot, p)
    ensures StockedLot(es + more, lot, p)
  {
    hide Happened;
    HappenedLater(es, more, StockedId(lot.batch), lot.bakedDay * DAY + OPENING);
  }

  lemma OnRecordGrows(es: seq<Event>, more: seq<Event>, shelves: seq<Shelf>)
    requires OnRecord(es, shelves)
    ensures OnRecord(es + more, shelves)
  {
    hide StockedLot;
    forall p: nat, i: nat | p < |shelves| && i < |shelves[p]| ensures StockedLot(es + more, shelves[p][i], p) {
      StockedLater(es, more, shelves[p][i], p);
    }
  }

  // ----- every step keeps the books -----

  /** Events that neither move stock nor sell. */
  lemma QuietBooked(es: seq<Event>, shelves: seq<Shelf>, more: seq<Event>)
    requires Booked(es, shelves)
    requires forall e <- more :: e.id.kind !in {ShipmentDequeued, SaleCompleted, DonationRecorded, InventoryReserved} && e.draws == []
    ensures Booked(es + more, shelves)
  {
    hide Matched, WellReserved, Left;
    forall b ensures BatchBalances(es + more, shelves, b) {
      assert BatchBalances(es, shelves, b);
      TakenOfConcat(es, more, b);
      NothingTaken(more, b);
      BatchOfConcat(es, more, ShipmentDequeued, b);
      BatchOfConcat(es, more, DonationRecorded, b);
      NoneOfBatch(more, ShipmentDequeued, b);
      NoneOfBatch(more, DonationRecorded, b);
    }
    ReservationsGrow(es, more);
    SoldGrows(es, more);
    DonationsGrow(es, more);
    OnRecordGrows(es, more, shelves);
  }

  lemma QuietKept(es: seq<Event>, shelves: seq<Shelf>, more: seq<Event>)
    requires Kept(es, shelves)
    requires forall e <- more :: e.id.kind !in {ShipmentDequeued, SaleCompleted, DonationRecorded, InventoryReserved} && e.draws == []
    requires forall e <- more, id <- e.prior :: Happened(es, id, e.time) || Happened(more, id, e.time)
    ensures Kept(es + more, shelves)
  {
    hide Sound, Booked, Happened;
    QuietSound(es, shelves, more);
    QuietBooked(es, shelves, more);
  }

  lemma FrontOffRecord(es: seq<Event>, shelves: seq<Shelf>, p: nat)
    requires OnRecord(es, shelves) && p < |shelves| && shelves[p] != []
    ensures OnRecord(es, shelves[p := shelves[p][1..]]) && shelves[p][0].batch.product == p
  {
    hide Happened;
    var after := shelves[p := shelves[p][1..]];
    assert StockedLot(es, shelves[p][0], p);
    forall q: nat, i: nat | q < |after| && i < |after[q]| ensures StockedLot(es, after[q][i], q) {
      assert StockedLot(es, shelves[q][if q == p then i + 1 else i], q);
    }
  }

  lemma FrontLeft(shelves: seq<Shelf>, p: nat, b: BatchId)
    requires p < |shelves| && shelves[p] != [] && shelves[p][0].batch.product == p
    ensures Left(shelves, b) == Left(shelves[p := shelves[p][1..]], b) + if shelves[p][0].batch == b then shelves[p][0].units else 0
  {
  }

  lemma DonationIsDue(es: seq<Event>, shelves: seq<Shelf>, p: nat, day: nat, d: nat)
    requires OnRecord(es, shelves) && p < |shelves| && shelves[p] != [] && !Fresh(shelves[p][0], day) && shelves[p][0].units > 0
    ensures Donations(Donation(shelves[p][0], day, d))
  {
    hide Happened;
    var lot := shelves[p][0];
    var more := Donation(lot, day, d);
    assert StockedLot(es, lot, p);
    MulGrows(lot.bakedDay + lot.freshness, day, DAY);
    assert more[0] in more && Matched(more, more[1], CharityTransfer);
  }

  lemma DonationKept(es: seq<Event>, shelves: seq<Shelf>, p: nat, day: nat, d: nat)
    requires Kept(es, shelves) && p < |shelves| && shelves[p] != [] && !Fresh(shelves[p][0], day) && shelves[p][0].units > 0
    ensures Kept(es + Donation(shelves[p][0], day, d), shelves[p := shelves[p][1..]])
  {
    hide Sound, Matched, WellReserved, Left, TakenFrom, BatchTally;
    var lot, after := shelves[p][0], shelves[p := shelves[p][1..]];
    var more := Donation(lot, day, d);
    FrontOffRecord(es, shelves, p);
    DonationSound(es, shelves, p, day, d);
    assert more == [more[0]] + [more[1]];
    forall b ensures BatchBalances(es + more, after, b) {
      assert BatchBalances(es, shelves, b);
      TakenOfConcat(es, more, b);
      NothingTaken(more, b);
      BatchOfConcat(es, more, ShipmentDequeued, b);
      BatchOfConcat(es, more, DonationRecorded, b);
      NoneOfBatch(more, ShipmentDequeued, b);
      BatchOfConcat([more[0]], [more[1]], DonationRecorded, b);
      OneOfBatch(more[0], DonationRecorded, b);
      OneOfBatch(more[1], DonationRecorded, b);
      FrontLeft(shelves, p, b);
    }
    ReservationsGrow(es, more);
    SoldGrows(es, more);
    DonationIsDue(es, shelves, p, day, d);
    DonationsGrow(es, more);
    OnRecordGrows(es, more, after);
  }

  lemma EmptyLotKept(es: seq<Event>, shelves: seq<Shelf>, p: nat)
    requires Kept(es, shelves) && p < |shelves| && shelves[p] != [] && shelves[p][0].units == 0
    ensures Kept(es, shelves[p := shelves[p][1..]])
  {
    hide Sound, Reservations, SoldAsReserved, Left, TakenFrom, BatchTally;
    var after := shelves[p := shelves[p][1..]];
    FrontOffRecord(es, shelves, p);
    EmptyLotLeaves(es, shelves, p);
    forall b ensures BatchBalances(es, after, b) {
      assert BatchBalances(es, shelves, b);
      FrontLeft(shelves, p, b);
    }
  }

  lemma DeliveredLeft(shelves: seq<Shelf>, lot: Lot, b: BatchId)
    requires lot.batch.product < |shelves|
    ensures var p := lot.batch.product;
            Left(shelves[p := shelves[p] + [lot]], b) == Left(shelves, b) + if lot.batch == b then lot.units else 0
  {
    LeftSnoc(shelves[lot.batch.product], lot, b);
  }

  lemma DeliveryOnRecord(es: seq<Event>, shelves: seq<Shelf>, lot: Lot, e: Event)
    requires OnRecord(es, shelves) && lot.batch.product < |shelves|
    requires e.id == StockedId(lot.batch) && e.time < lot.bakedDay * DAY + OPENING
    requires lot.batch.day == lot.bakedDay && lot.batch.product < |PRODUCTS| && lot.freshness == PRODUCTS[lot.batch.product].freshness
    ensures var p := lot.batch.product; OnRecord(es + [e], shelves[p := shelves[p] + [lot]])
  {
    var p := lot.batch.product;
    var after := shelves[p := shelves[p] + [lot]];
    assert e in es + [e];
    assert StockedLot(es + [e], lot, p);
    hide StockedLot;
    forall q: nat, i: nat | q < |after| && i < |after[q]| ensures StockedLot(es + [e], after[q][i], q) {
      if q != p || i < |shelves[p]| { StockedLater(es, [e], shelves[q][i], q); }
    }
  }

  lemma DeliveryKept(es: seq<Event>, shelves: seq<Shelf>, lot: Lot, e: Event)
    requires Kept(es, shelves) && lot.batch.product < |shelves|
    requires e.id == StockedId(lot.batch) && e.product == lot.batch.product && e.units == lot.units && e.draws == []
    requires lot.batch.day == lot.bakedDay && lot.batch.product < |PRODUCTS| && lot.freshness == PRODUCTS[lot.batch.product].freshness
    requires e.time < lot.bakedDay * DAY + OPENING && forall id <- e.prior :: Happened(es, id, e.time)
    ensures var p := lot.batch.product; Kept(es + [e], shelves[p := shelves[p] + [lot]])
  {
    hide Sound, Matched, WellReserved, Left, TakenFrom, BatchTally, Happened, OnRecord;
    var p := lot.batch.product;
    var after := shelves[p := shelves[p] + [lot]];
    DeliverySound(es, shelves, lot, e);
    forall b ensures BatchBalances(es + [e], after, b) {
      assert BatchBalances(es, shelves, b);
      TakenOfConcat(es, [e], b);
      NothingTaken([e], b);
      BatchOfConcat(es, [e], ShipmentDequeued, b);
      BatchOfConcat(es, [e], DonationRecorded, b);
      OneOfBatch(e, ShipmentDequeued, b);
      OneOfBatch(e, DonationRecorded, b);
      DeliveredLeft(shelves, lot, b);
    }
    ReservationsGrow(es, [e]);
    SoldGrows(es, [e]);
    DonationsGrow(es, [e]);
    DeliveryOnRecord(es, shelves, lot, e);
  }

  // ----- sales -----

  lemma StockoutQuiet(order: nat, p: nat, q: nat, at: int, d: nat)
    ensures forall e <- Stockout(order, p, q, at, d) ::
              e.id.kind !in {ShipmentDequeued, SaleCompleted, DonationRecorded, InventoryReserved} && e.draws == []
  {
  }

  lemma SaleTaken(order: nat, p: nat, q: nat, draws: seq<Draw>, at: int, d1: nat, d2: nat, d3: nat, b: BatchId)
    ensures TakenFrom(Sale(order, p, q, draws, at, d1, d2, d3), b) == DrawnOf(draws, b)
  {
    var es := Sale(order, p, q, draws, at, d1, d2, d3);
    assert es == [es[0]] + ([es[1]] + es[2..]);
    TakenOfConcat([es[0]], [es[1]] + es[2..], b);
    TakenOfConcat([es[1]], es[2..], b);
    OneOfBatch(es[0], SaleCompleted, b);
    OneOfBatch(es[1], SaleCompleted, b);
    NothingTaken(es[2..], b);
  }

  lemma SaleNotOfBatch(order: nat, p: nat, q: nat, draws: seq<Draw>, at: int, d1: nat, d2: nat, d3: nat, kind: Kind, b: BatchId)
    ensures BatchTally(Sale(order, p, q, draws, at, d1, d2, d3), kind, b) == 0
  {
    NoneOfBatch(Sale(order, p, q, draws, at, d1, d2, d3), kind, b);
  }

  lemma SaleIsMatched(order: nat, p: nat, q: nat, draws: seq<Draw>, at: int, d1: nat, d2: nat, d3: nat)
    ensures SoldAsReserved(Sale(order, p, q, draws, at, d1, d2, d3))
  {
    var es := Sale(order, p, q, draws, at, d1, d2, d3);
    assert es[1] in es && es[3] in es;
  }

  lemma SaleGivesNothing(order: nat, p: nat, q: nat, draws: seq<Draw>, at: int, d1: nat, d2: nat, d3: nat)
    ensures Donations(Sale(order, p, q, draws, at, d1, d2, d3))
  {
  }

  lemma ReservedLeft(shelves: seq<Shelf>, p: nat, q: nat, b: BatchId)
    requires p < |shelves| && forall i :: 0 <= i < |shelves[p]| ==> shelves[p][i].batch.product == p
    ensures Left(shelves, b) == Left(shelves[p := Trimmed(Drawn(shelves[p], q))], b) + DrawnOf(Draws(shelves[p], q), b)
  {
    hide Trimmed, Drawn, Draws, LeftOn;
    var s := shelves[p];
    DrawnIsMissing(s, q, b);
    TrimmedLeft(Drawn(s, q), b);
    if b.product != p {
      DrawsAreLots(s, q);
      NotDrawnFrom(Draws(s, q), b);
    }
  }

  lemma RemnantOnRecord(es: seq<Event>, shelves: seq<Shelf>, p: nat, q: nat)
    requires OnRecord(es, shelves) && p < |shelves|
    ensures OnRecord(es, shelves[p := Trimmed(Drawn(shelves[p], q))])
  {
    hide Trimmed, Drawn, Happened;
    var k := Remnant(shelves[p], q);
    var after := shelves[p := Trimmed(Drawn(shelves[p], q))];
    forall x: nat, i: nat | x < |after| && i < |after[x]| ensures StockedLot(es, after[x][i], x) {
      assert StockedLot(es, shelves[x][if x == p then k + i else i], x);
    }
  }

  /** The lots a reservation draws on were stocked on an earlier morning or on this one. */
  lemma NewReservation(es: seq<Event>, shelves: seq<Shelf>, order: nat, p: nat, q: nat, at: int, d1: nat, d2: nat, d3: nat, day: nat)
    requires OnRecord(es, shelves) && Stocked(shelves, day) && p < |PRODUCTS| && 0 < q <= Units(shelves[p]) && day * DAY + OPENING <= at
    ensures var draws := Draws(shelves[p], q);
            var more := Sale(order, p, q, draws, at, d1, d2, d3);
            forall e <- more :: e.id.kind == InventoryReserved ==> WellReserved(es + more, e)
  {
    hide Draws, Units, Happened, InOrder, AllFresh, Sale;
    var s, draws := shelves[p], Draws(shelves[p], q);
    var more := Sale(order, p, q, draws, at, d1, d2, d3);
    ReservedExactly(s, q);
    DrawsAreLots(s, q);
    forall d | d in draws
      ensures d.lot.batch.product == p && Happened(es + more, StockedId(d.lot.batch), at + 80 + d1)
    {
      var i: nat :| i < |s| && s[i] == d.lot;
      assert StockedLot(es, shelves[p][i], p) && d.lot in s;
      StockedInTime(es, d.lot, day, at + 80 + d1);
      HappenedLater(es, more, StockedId(d.lot.batch), at + 80 + d1);
    }
    OnlyReservation(es + more, order, p, q, draws, at, d1, d2, d3);
  }

  lemma StockedInTime(es: seq<Event>, lot: Lot, day: nat, t: int)
    requires Happened(es, StockedId(lot.batch), lot.bakedDay * DAY + OPENING) && lot.bakedDay <= day && day * DAY + OPENING <= t
    ensures Happened(es, StockedId(lot.batch), t)
  {
  }

  lemma OnlyReservation(es: seq<Event>, order: nat, p: nat, q: nat, draws: seq<Draw>, at: int, d1: nat, d2: nat, d3: nat)
    requires Total(draws) == q && q > 0
    requires forall d <- draws :: 1 <= d.units <= d.lot.units && d.lot.batch.product == p && Happened(es, StockedId(d.lot.batch), at + 80 + d1)
    ensures forall e <- Sale(order, p, q, draws, at, d1, d2, d3) :: e.id.kind == InventoryReserved ==> WellReserved(es, e)
  {
    hide Happened;
  }

  lemma SaleBooked(es: seq<Event>, shelves: seq<Shelf>, order: nat, p: nat, q: nat, at: int, d1: nat, d2: nat, d3: nat, day: nat)
    requires Booked(es, shelves) && Stocked(shelves, day) && p < |PRODUCTS| && 0 < q <= Units(shelves[p]) && day * DAY + OPENING <= at
    ensures Booked(es + Sale(order, p, q, Draws(shelves[p], q), at, d1, d2, d3), shelves[p := Trimmed(Drawn(shelves[p], q))])
  {
    hide Draws, Drawn, Trimmed, Units, Sale, Left, TakenFrom, BatchTally, Matched, WellReserved, OnRecord, AllFresh, BakedBy;
    var draws, after := Draws(shelves[p], q), shelves[p := Trimmed(Drawn(shelves[p], q))];
    var more := Sale(order, p, q, draws, at, d1, d2, d3);
    assert InOrder(shelves[p], p, PRODUCTS[p].freshness);
    forall b ensures BatchBalances(es + more, after, b) {
      assert BatchBalances(es, shelves, b);
      TakenOfConcat(es, more, b);
      SaleTaken(order, p, q, draws, at, d1, d2, d3, b);
      BatchOfConcat(es, more, ShipmentDequeued, b);
      BatchOfConcat(es, more, DonationRecorded, b);
      SaleNotOfBatch(order, p, q, draws, at, d1, d2, d3, ShipmentDequeued, b);
      SaleNotOfBatch(order, p, q, draws, at, d1, d2, d3, DonationRecorded, b);
      ReservedLeft(shelves, p, q, b);
    }
    NewReservation(es, shelves, order, p, q, at, d1, d2, d3, day);
    ReservationsGrow(es, more);
    SaleIsMatched(order, p, q, draws, at, d1, d2, d3);
    SoldGrows(es, more);
    SaleGivesNothing(order, p, q, draws, at, d1, d2, d3);
    DonationsGrow(es, more);
    RemnantOnRecord(es, shelves, p, q);
    OnRecordGrows(es, more, after);
  }

  /** A customer's visit in opening hours keeps everything. */
  lemma ServedIsKept(es: seq<Event>, shelves: seq<Shelf>, es': seq<Event>, shelves': seq<Shelf>, order: nat, at: int, day: nat, o: Order)
    requires Served(es, shelves, es', shelves', order, at, o)
    requires Kept(es, shelves) && Stocked(shelves, day) && day * DAY + OPENING <= at && at + 500 < day * DAY + DAY
    ensures Kept(es', shelves') && Stocked(shelves', day)
  {
    hide Sound, Booked, Sale, Stockout, Trimmed, Drawn, Units, Draws, Stocked;
    ServedIsSound(es, shelves, es', shelves', order, at, day, o);
    var p, q := o.product, o.quantity;
    if Units(shelves[p]) < q {
      StockoutQuiet(order, p, q, at, o.d1);
      QuietBooked(es, shelves, Stockout(order, p, q, at, o.d1));
    } else {
      SaleBooked(es, shelves, order, p, q, at, o.d1, o.d2, o.d3, day);
    }
  }

  // ----- the file -----

  /** In the file, every lot a reservation draws on was stocked further up. */
  predicate DrawsAfterStock(es: seq<Event>) {
    forall j, d :: 0 <= j < |es| && d in es[j].draws ==> ComesBefore(es, StockedId(d.lot.batch), j)
  }

  lemma {:induction false} BooksShuffled(es: seq<Event>, out: seq<Event>)
    requires multiset(out) == multiset(es)
    ensures forall b :: TakenFrom(out, b) == TakenFrom(es, b)
    ensures forall kind, b :: BatchTally(out, kind, b) == BatchTally(es, kind, b)
    decreases |out|
  {
    if out == [] {
      assert |multiset(es)| == 0;
    } else {
      var front, e := out[..|out| - 1], out[|out| - 1];
      assert out == front + [e];
      assert e in multiset(es);
      var a, b := TakeOut(es, e);
      BooksShuffled(a + b, front);
      forall x ensures TakenFrom(out, x) == TakenFrom(es, x) {
        TakenOfConcat(a + [e], b, x);
        TakenOfConcat(a, [e], x);
        TakenOfConcat(a, b, x);
        OneOfBatch(e, SaleCompleted, x);
      }
      forall kind, x ensures BatchTally(out, kind, x) == BatchTally(es, kind, x) {
        BatchOfConcat(a + [e], b, kind, x);
        BatchOfConcat(a, [e], kind, x);
        BatchOfConcat(a, b, kind, x);
        OneOfBatch(e, kind, x);
      }
    }
  }

  lemma BookedShuffled(es: seq<Event>, out: seq<Event>, shelves: seq<Shelf>)
    requires Booked(es, shelves) && multiset(out) == multiset(es)
    ensures Booked(out, shelves)
  {
    hide TakenFrom, BatchTally, Left, Total;
    BooksShuffled(es, out);
    forall b ensures BatchBalances(out, shelves, b) { assert BatchBalances(es, shelves, b); }
    forall e ensures e in out <==> e in es { assert e in multiset(out) <==> e in multiset(es); }
    SameEvents(es, out, shelves);
  }

  lemma SameEvents(es: seq<Event>, out: seq<Event>, shelves: seq<Shelf>)
    requires Reservations(es) && SoldAsReserved(es) && Donations(es) && OnRecord(es, shelves) && forall e :: e in out <==> e in es
    ensures Reservations(out) && SoldAsReserved(out) && Donations(out) && OnRecord(out, shelves)
  {
    hide Total;
    forall id, t ensures Happened(es, id, t) ==> Happened(out, id, t) {}
    forall e, kind ensures Matched(es, e, kind) ==> Matched(out, e, kind) {}
    hide Happened, Matched;
    forall e | e in out && e.id.kind == InventoryReserved ensures WellReserved(out, e) { assert WellReserved(es, e); }
    forall e | e in out && e.id.kind == DonationRecorded ensures GivenAway(out, e) { assert GivenAway(es, e); }
    forall p: nat, i: nat | p < |shelves| && i < |shelves[p]| ensures StockedLot(out, shelves[p][i], p) {
      assert StockedLot(es, shelves[p][i], p);
    }
  }

  lemma StockComesFirst(out: seq<Event>)
    requires Distinct(out) && ByTime(out) && Reservations(out) && FreshDraws(out)
    ensures DrawsAfterStock(out)
  {
    hide Total;
    forall j: nat, d | j < |out| && d in out[j].draws ensures ComesBefore(out, StockedId(d.lot.batch), j) {
      var e := out[j];
      assert DrawsFreshLots(e) && WellReserved(out, e);
      var f :| f in out && f.id == StockedId(d.lot.batch) && f.time < e.time;
      var i :| 0 <= i < |out| && out[i] == f;
      forall k | 0 <= k < |out| && out[k].id == StockedId(d.lot.batch) ensures k == i { assert out[k].id == out[i].id; }
    }
  }
}
