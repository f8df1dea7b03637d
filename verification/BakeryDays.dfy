/** The simulation, day by day. */
module BakeryDays {
  import opened Arithmetic
  import opened BakeryShelf
  import opened Bakery
  import opened BakeryIds
  import opened BakeryLedger
  import opened Sorting

  const WINDOW := 9 * 60 * MINUTE
  const ARRIVAL := 7 * 60 * MINUTE

  /** A batch on the truck, with the event that loaded it. */
  datatype Queued = Queued(lot: Lot, id: EventId, time: int)

  /** By loading time, then by identifier; identifiers of one day follow the products. */
  predicate Sooner(a: Queued, b: Queued) {
    a.time < b.time || (a.time == b.time && a.lot.batch.product <= b.lot.batch.product)
  }

  predicate Loaded(es: seq<Event>, q: Queued, day: nat) {
    && q.lot.bakedDay == day == q.lot.batch.day && q.lot.batch.product < |PRODUCTS|
    && q.lot.freshness == PRODUCTS[q.lot.batch.product].freshness
    && Happened(es, q.id, day * DAY + ARRIVAL)
  }

  function Production(batch: BatchId, units: nat, started: int, baking: int, loading: int): seq<Event> {
    var id := (kind: Kind) => EventId(OfBatch(batch), kind);
    [Event(id(BakeStarted), [], started, batch.product, units, []),
     Event(id(BatchBaked), [id(BakeStarted)], started + baking, batch.product, units, []),
     Event(id(ShipmentEnqueued), [id(BatchBaked)], started + baking + loading, batch.product, units, [])]
  }

  lemma ProductionKept(es: seq<Event>, shelves: seq<Shelf>, batch: BatchId, units: nat, started: int, baking: int, loading: int)
    requires Kept(es, shelves) && baking > 0 && loading > 0
    ensures var more := Production(batch, units, started, baking, loading);
            Kept(es + more, shelves) && forall t :: started + baking + loading < t ==> Happened(es + more, more[2].id, t)
  {
    var more := Production(batch, units, started, baking, loading);
    assert more[0] in more && more[1] in more && more[2] in more;
    hide Kept, Production;
    forall e, id | e in more && id in e.prior ensures Happened(more, id, e.time) {}
    QuietKept(es, shelves, more);
    assert more[2] in es + more;
  }

  /** Appending the day's lot keeps a shelf in order and fresh. */
  lemma StockedGrows(shelves: seq<Shelf>, lot: Lot, day: nat)
    requires Stocked(shelves, day) && lot.batch.product < |PRODUCTS|
    requires lot.bakedDay == day && lot.freshness == PRODUCTS[lot.batch.product].freshness
    ensures var p := lot.batch.product; Stocked(shelves[p := shelves[p] + [lot]], day)
  {
    var p := lot.batch.product;
    var s, r := shelves[p], shelves[p] + [lot];
    forall i | 0 <= i < |r|
      ensures r[i].bakedDay <= day && Fresh(r[i], day)
      ensures r[i].freshness == PRODUCTS[p].freshness && r[i].batch.product == p
    {
      if i < |s| {
        var x := s[i];
        assert x in s;
      }
    }
  }

  /** The lots of one product on the truck, in order. */
  function LotsFor(queue: seq<Queued>, p: nat): Shelf {
    if queue == [] then []
    else (if queue[0].lot.batch.product == p then [queue[0].lot] else []) + LotsFor(queue[1..], p)
  }

  lemma {:induction false} LotsForSnoc(queue: seq<Queued>, q: Queued, p: nat)
    ensures LotsFor(queue + [q], p) == LotsFor(queue, p) + if q.lot.batch.product == p then [q.lot] else []
  {
    if queue == [] {
      assert [q][1..] == [];
    } else {
      LotsForSnoc(queue[1..], q, p);
      assert (queue + [q])[0] == queue[0] && (queue + [q])[1..] == queue[1..] + [q];
      var head := if queue[0].lot.batch.product == p then [queue[0].lot] else [];
      var tail := if q.lot.batch.product == p then [q.lot] else [];
      assert head + (LotsFor(queue[1..], p) + tail) == (head + LotsFor(queue[1..], p)) + tail;
    }
  }

  lemma {:induction false} LotsForInsert(q: Queued, queue: seq<Queued>, p: nat)
    ensures q.lot.batch.product != p ==> LotsFor(Insert(Sooner, q, queue), p) == LotsFor(queue, p)
    ensures q.lot.batch.product == p && LotsFor(queue, p) == [] ==> LotsFor(Insert(Sooner, q, queue), p) == [q.lot]
  {
    if queue == [] {
      assert [q][1..] == [];
    } else if Sooner(q, queue[0]) {
      assert ([q] + queue)[1..] == queue;
    } else {
      LotsForInsert(q, queue[1..], p);
      assert ([queue[0]] + Insert(Sooner, q, queue[1..]))[1..] == Insert(Sooner, q, queue[1..]);
    }
  }

  /** Sorting the queue brings each product's one lot all the same. */
  lemma {:induction false} LotsForSort(queue: seq<Queued>, p: nat)
    requires |LotsFor(queue, p)| <= 1
    ensures LotsFor(Sort(Sooner, queue), p) == LotsFor(queue, p)
  {
    if queue != [] {
      var front, last := queue[..|queue| - 1], queue[|queue| - 1];
      assert queue == front + [last];
      LotsForSnoc(front, last, p);
      LotsForSort(front, p);
      LotsForInsert(last, Sort(Sooner, front), p);
    }
  }

  /** The truck has exactly one lot of product `p`, as baked. */
  predicate Single(queue: seq<Queued>, day: nat, p: nat, perProduct: nat) {
    |LotsFor(queue, p)| == 1 && Baked(LotsFor(queue, p)[0], day, p, perProduct)
  }

  function PerProduct(ordersToday: nat): nat {
    (if ordersToday > 1 then ordersToday else 1) * 11 / 10
  }

  /** A lot as the morning's baking makes it. */
  predicate Baked(lot: Lot, day: nat, p: nat, perProduct: nat) {
    && p < |PRODUCTS| && lot == Lot(BatchId(day, p), day, PRODUCTS[p].freshness, PRODUCTS[p].unitCost, lot.units)
    && perProduct <= lot.units < perProduct + if perProduct / 3 + 1 > 2 then perProduct / 3 + 1 else 2
  }

  /** Each shelf has one more lot, just baked, at its end. */
  predicate Restocked(before: seq<Shelf>, after: seq<Shelf>, day: nat, perProduct: nat) {
    && |before| == |after| == |PRODUCTS|
    && forall p: nat :: p < |PRODUCTS| ==>
                   |after[p]| == |before[p]| + 1 && before[p] <= after[p] && Baked(after[p][|before[p]|], day, p, perProduct)
  }

  /** A morning brings each product a unit for every order of the day, and no more than half as many again and one. */
  lemma SuppliesTheDay(before: seq<Shelf>, after: seq<Shelf>, day: nat, orders: nat, p: nat)
    requires Restocked(before, after, day, PerProduct(orders)) && p < |PRODUCTS|
    ensures var more, needed := Units(after[p]) - Units(before[p]), if orders == 0 then 1 else orders;
            needed <= more && 2 * more <= 3 * needed + 2
  {
    var lot := after[p][|before[p]|];
    assert after[p] == before[p] + [lot];
    StockedUnits(before[p], lot);
  }

  lemma NextMorning(shelves: seq<Shelf>, day: nat)
    requires Stocked(shelves, day)
    ensures Morning(shelves, day + 1)
  {
  }

  lemma HappenedBefore(es: seq<Event>, id: EventId, t: int, u: int)
    requires Happened(es, id, t) && t <= u
    ensures Happened(es, id, u)
  {
  }

  class Simulation {
    const rng: Lcg
    var shelves: seq<Shelf>
    var events: seq<Event>

    constructor (seed: nat)
      ensures fresh(rng) && events == [] && Kept(events, shelves) && Morning(shelves, 0) && Tagged(events, shelves, 0, 0, 0)
    {
      rng := new Lcg(seed);
      shelves := [[], [], [], []];
      events := [];
    }

    /** What expired is given away; only the front of each shelf is looked at. */
    method ExpireLots(day: nat, ghost sold: nat)
      requires Kept(events, shelves) && Morning(shelves, day) && Tagged(events, shelves, day, day, sold)
      modifies this, rng
      ensures Tagged(events, shelves, day, day, sold)
      ensures Kept(events, shelves) && Stocked(shelves, day) && Morning(shelves, day)
      ensures |shelves| == |old(shelves)| && forall p :: 0 <= p < |shelves| ==> shelves[p] == old(shelves[p])[ExpiredFront(old(shelves[p]), day)..]
      ensures Continues(old(events), events, 0)
    {
      hide Kept, Fresh, InOrder, Count, Tagged;
      ghost var start := shelves;
      for p: nat := 0 to |PRODUCTS|
        invariant Kept(events, shelves) && |shelves| == |PRODUCTS| && Continues(old(events), events, 0)
        invariant Tagged(events, shelves, day, day, sold)
        invariant forall i :: 0 <= i < p ==> shelves[i] == start[i][ExpiredFront(start[i], day)..]
        invariant forall i :: p <= i < |PRODUCTS| ==> shelves[i] == start[i]
      {
        ClearShelf(p, day, sold);
      }
      forall p | 0 <= p < |shelves|
        ensures InOrder(shelves[p], p, PRODUCTS[p].freshness) && AllFresh(shelves[p], day)
        ensures forall lot <- shelves[p] :: lot.bakedDay < day
      {
        ClearedShelf(start[p], day, p, PRODUCTS[p].freshness);
      }
    }

    method ClearShelf(p: nat, day: nat, ghost sold: nat)
      requires Kept(events, shelves) && p < |shelves| == |PRODUCTS| && InOrder(shelves[p], p, PRODUCTS[p].freshness)
      requires Tagged(events, shelves, day, day, sold)
      modifies this, rng
      ensures Tagged(events, shelves, day, day, sold)
      ensures Kept(events, shelves) && shelves == old(shelves)[p := old(shelves[p])[ExpiredFront(old(shelves[p]), day)..]]
      ensures Continues(old(events), events, 0)
    {
      hide Kept, Donation, Count, Tagged;
      ghost var s := shelves[p];
      ghost var k := 0;
      assert s[0..] == s;
      while shelves[p] != [] && day - shelves[p][0].bakedDay >= shelves[p][0].freshness
        invariant Kept(events, shelves) && 0 <= k <= |s| && |shelves| == |PRODUCTS| && shelves == old(shelves)[p := s[k..]]
        invariant InOrder(shelves[p], p, PRODUCTS[p].freshness) && Continues(old(events), events, 0)
        invariant k + ExpiredFront(s[k..], day) == ExpiredFront(s, day)
        invariant Tagged(events, shelves, day, day, sold)
        decreases |shelves[p]|
      {
        var lot := shelves[p][0];
        ghost var shelf := shelves[p];
        assert s[k..][1..] == s[k + 1..];
        if lot.units == 0 {
          EmptyLotKept(events, shelves, p);
          EmptyLotTagged(events, shelves, p, day, day, sold);
        } else {
          var bytes := rng.Below(20);
          var d := rng.Below(751);
          bytes := rng.Below(18);
          DonationKept(events, shelves, p, day, d);
          DonationTagged(events, shelves, p, day, d, day, day, sold);
          DonationKinds(lot, day, d);
          ContinuesWith(events, Donation(lot, day, d));
          events := events + Donation(lot, day, d);
        }
        shelves := shelves[p := shelves[p][1..]];
        k := k + 1;
      }
      assert ExpiredFront(s[k..], day) == 0;
    }

    /** Bakes one batch of each product, loads the truck and stocks the shelves in the order of the queue. */
    method MorningProduction(day: nat, ordersToday: nat, ghost sold: nat)
      requires Kept(events, shelves) && Stocked(shelves, day) && Tagged(events, shelves, day, day, sold)
      modifies this, rng
      ensures Tagged(events, shelves, day + 1, day, sold)
      ensures Kept(events, shelves) && Stocked(shelves, day) && Continues(old(events), events, 0)
      ensures Restocked(old(shelves), shelves, day, PerProduct(ordersToday))
    {
      hide Kept, Stocked, Happened, Production, Count, Tagged, TaggedSoFar;
      StockedSize(shelves, day);
      MorningBegins(events, shelves, day, day, sold);
      var perProduct := PerProduct(ordersToday);
      var queue: seq<Queued> := [];
      for slot: nat := 0 to |PRODUCTS|
        invariant Kept(events, shelves) && Stocked(shelves, day) && Continues(old(events), events, 0) && shelves == old(shelves)
        invariant TaggedSoFar(events, shelves, day, day, sold, slot, {}) && |queue| == slot
        invariant forall q <- queue :: Loaded(events, q, day)
        invariant forall p: nat :: p < |PRODUCTS| ==> if p < slot then Single(queue, day, p, perProduct) else LotsFor(queue, p) == []
      {
        ghost var was := queue;
        var q := BakeAndLoad(day, slot, perProduct, sold);
        queue := queue + [q];
        forall p: nat | p < |PRODUCTS| ensures if p < slot + 1 then Single(queue, day, p, perProduct) else LotsFor(queue, p) == [] {
          LotsForSnoc(was, q, p);
        }
      }
      QueueIsSorted(queue);
      forall p: nat | p < |PRODUCTS| ensures Single(Sort(Sooner, queue), day, p, perProduct) { LotsForSort(queue, p); }
      queue := Sort(Sooner, queue);
      ghost var start := shelves;
      OneEachFromLots(queue, day, perProduct);
      ghost var unloaded := Deliver(day, queue, sold);
      RestockedBy(start, shelves, queue, day, perProduct);
      RestockedTagged(events, start, shelves, day, perProduct, day, sold, unloaded);
    }

    method BakeAndLoad(day: nat, slot: nat, perProduct: nat, ghost sold: nat) returns (q: Queued)
      requires Kept(events, shelves) && Stocked(shelves, day) && slot < |PRODUCTS|
      requires TaggedSoFar(events, shelves, day, day, sold, slot, {})
      modifies this`events, rng
      ensures Kept(events, shelves) && Loaded(events, q, day) && Baked(q.lot, day, slot, perProduct)
      ensures TaggedSoFar(events, shelves, day, day, sold, slot + 1, {})
      ensures forall x :: Loaded(old(events), x, day) ==> Loaded(events, x, day)
      ensures Continues(old(events), events, 0)
    {
      hide Kept, Happened, Production, Count, TaggedSoFar;
      var spread := perProduct / 3 + 1;
      var extra := rng.Below(if spread > 2 then spread else 2);
      var units := perProduct + extra;
      var batch := BatchId(day, slot);
      var started := day * DAY + (4 * 60 + slot * 8) * MINUTE;
      var bytes := rng.Below(16);
      var baking := rng.Below(31);
      bytes := rng.Below(24);
      var loading := rng.Below(1501);
      bytes := rng.Below(20);
      var more := Production(batch, units, started, (50 + baking) * MINUTE, 500 + loading);
      ProductionKept(events, shelves, batch, units, started, (50 + baking) * MINUTE, 500 + loading);
      ghost var was := events;
      ProductionTagged(events, shelves, day, slot, sold, batch, units, started, (50 + baking) * MINUTE, 500 + loading);
      events := events + more;
      q := Queued(Lot(batch, day, PRODUCTS[slot].freshness, PRODUCTS[slot].unitCost, units), EventId(OfBatch(batch), ShipmentEnqueued),
                  started + (50 + baking) * MINUTE + 500 + loading);
      LastOfProduction(batch, units, started, (50 + baking) * MINUTE, 500 + loading);
      ContinuesWith(was, more);
      forall x | Loaded(was, x, day) ensures Loaded(events, x, day) { HappenedLater(was, more, x.id, day * DAY + ARRIVAL); }
    }

    /** One batch goes from the truck to the end of its shelf. */
    method Unload(day: nat, q: Queued, position: nat, previous: seq<EventId>, ghost dawn: seq<Shelf>, ghost unloaded: set<nat>, ghost sold: nat)
      returns (e: Event)
      requires Kept(events, shelves) && Stocked(shelves, day) && |shelves| == |PRODUCTS| && Loaded(events, q, day)
      requires position < |PRODUCTS| && forall id <- previous :: Happened(events, id, day * DAY + ARRIVAL + position * 2 * MINUTE)
      requires TaggedSoFar(events, dawn, day, day, sold, |PRODUCTS|, unloaded) && q.lot.batch.product !in unloaded
      modifies this, rng
      ensures Kept(events, shelves) && Stocked(shelves, day) && Continues(old(events), events, 0)
      ensures var p := q.lot.batch.product; shelves == old(shelves)[p := old(shelves)[p] + [q.lot]]
      ensures events == old(events) + [e] && Happened(events, e.id, day * DAY + ARRIVAL + (position + 1) * 2 * MINUTE)
      ensures TaggedSoFar(events, dawn, day, day, sold, |PRODUCTS|, unloaded + {q.lot.batch.product})
    {
      hide Kept, Stocked, Happened, Count, TaggedSoFar;
      var p, base := q.lot.batch.product, day * DAY + ARRIVAL;
      var delay := rng.Below(30001);
      var bytes := rng.Below(22);
      e := Event(EventId(OfBatch(q.lot.batch), ShipmentDequeued), [q.id] + previous,
                 base + position * 2 * MINUTE + delay, p, q.lot.units, []);
      forall id | id in e.prior ensures Happened(events, id, e.time) {
        HappenedBefore(events, id, if id in previous then base + position * 2 * MINUTE else base, e.time);
      }
      DeliveryKept(events, shelves, q.lot, e);
      StockedGrows(shelves, q.lot, day);
      DeliveryTagged(events, dawn, day, sold, unloaded, e, q.lot.batch);
      ContinuesWith(events, [e]);
      JustHappened(events, e, base + (position + 1) * 2 * MINUTE);
      events := events + [e];
      shelves := shelves[p := shelves[p] + [q.lot]];
    }

    /** The truck is unloaded in the order of its queue, a batch every two minutes or so. */
    method Deliver(day: nat, queue: seq<Queued>, ghost sold: nat) returns (ghost unloaded: set<nat>)
      requires Kept(events, shelves) && Stocked(shelves, day) && forall q <- queue :: Loaded(events, q, day)
      requires |queue| <= |PRODUCTS| && OneEach(queue) && TaggedSoFar(events, shelves, day, day, sold, |PRODUCTS|, {})
      modifies this, rng
      ensures TaggedSoFar(events, old(shelves), day, day, sold, |PRODUCTS|, unloaded)
      ensures Kept(events, shelves) && Stocked(shelves, day) && Continues(old(events), events, 0)
      ensures |shelves| == |old(shelves)| == |PRODUCTS|
      ensures forall p: nat :: p < |PRODUCTS| ==> shelves[p] == old(shelves)[p] + LotsFor(queue, p)
    {
      hide Kept, Stocked, Happened, Count, TaggedSoFar;
      unloaded := {};
      StockedSize(shelves, day);
      ghost var dawn := shelves;
      var base := day * DAY + ARRIVAL;
      var previous: seq<EventId> := [];
      for position: nat := 0 to |queue|
        invariant Kept(events, shelves) && Stocked(shelves, day) && |shelves| == |PRODUCTS| && Continues(old(events), events, 0)
        invariant forall p: nat :: p < |PRODUCTS| ==> shelves[p] == dawn[p] + LotsFor(queue[..position], p)
        invariant forall q <- queue :: Loaded(events, q, day)
        invariant TaggedSoFar(events, dawn, day, day, sold, |PRODUCTS|, unloaded)
        invariant forall p :: p in unloaded ==> exists i :: 0 <= i < position && queue[i].lot.batch.product == p
        invariant forall id <- previous :: Happened(events, id, base + position * 2 * MINUTE)
      {
        var q := queue[position];
        assert q in queue;
        ghost var was := events;
        var e := Unload(day, q, position, previous, dawn, unloaded, sold);
        unloaded := unloaded + {q.lot.batch.product};
        assert queue[..position + 1] == queue[..position] + [q];
        forall p: nat | p < |PRODUCTS| ensures shelves[p] == dawn[p] + LotsFor(queue[..position + 1], p) {
          LotsForSnoc(queue[..position], q, p);
        }
        forall x | x in queue ensures Loaded(events, x, day) { HappenedLater(was, [e], x.id, base); }
        previous := [e.id];
      }
      assert queue[..|queue|] == queue;
    }

    /** One customer: a purchase from the oldest lots, or a stockout. */
    method RetailSale(order: nat, arrival: int) returns (ghost o: Order)
      requires |shelves| == |PRODUCTS|
      modifies this, rng
      ensures Served(old(events), old(shelves), events, shelves, order, arrival, o)
    {
      hide Tally, Sale, Stockout;
      var p := rng.Below(|PRODUCTS|);
      var more := rng.Below(6);
      var quantity := 1 + more;
      var bytes := rng.Below(24);
      var r, after := ReserveFifo(shelves[p], quantity);
      if r.NotEnough? {
        var d := rng.Below(421);
        bytes := rng.Below(18);
        events := events + Stockout(order, p, quantity, arrival, d);
        o := Order(p, quantity, d, 0, 0);
      } else {
        var d1 := rng.Below(421);
        bytes := rng.Below(24);
        var d2 := rng.Below(851);
        bytes := rng.Below(20);
        var d3 := rng.Below(401);
        bytes := rng.Below(22);
        events := events + Sale(order, p, quantity, r.draws, arrival, d1, d2, d3);
        o := Order(p, quantity, d1, d2, d3);
        shelves := shelves[p := after];
      }
    }

    /** Seven people are paid for the day, in the afternoon. */
    method ShiftEvents(day: nat) returns (paid: seq<Event>)
      modifies rng
      ensures |paid| == 7 && forall i: nat :: i < 7 ==> Paid(paid[i], day, i)
    {
      paid := [];
      for index: nat := 0 to 7
        invariant |paid| == index && forall i: nat :: i < index ==> Paid(paid[i], day, i)
      {
        var minutes := rng.Below(121);
        var late := rng.Below(180);
        paid := paid + [Event(EventId(OfShift(day, index), ShiftPaid), [], day * DAY + (13 * 60 + late) * MINUTE, 0, 0, [])];
      }
    }

    /** All days. Every order is served, stock is conserved, no sale draws on an expired lot, and every event comes
        after its priors. */
    method Run(orders: nat, days: nat)
      requires days > 0 && Kept(events, shelves) && Morning(shelves, 0) && Tagged(events, shelves, 0, 0, 0)
      modifies this, rng
      ensures Kept(events, shelves) && Morning(shelves, days) && Tagged(events, shelves, days, days, orders)
      ensures Continues(old(events), events, orders)
    {
      hide Kept, Stocked, Morning, Served, Continues, OrdersBefore, OrdersOn, OpenFor, Restocked, Paid, Tagged;
      var order: nat := 0;
      OrdersInAll(orders, days);
      ContinuesFromSelf(events);
      for day: nat := 0 to days
        invariant Kept(events, shelves) && Morning(shelves, day)
        invariant order == OrdersBefore(orders, days, day) && Continues(old(events), events, order)
        invariant Tagged(events, shelves, day, day, order)
      {
        ghost var dawn := events;
        ExpireLots(day, order);
        ContinuesOn(old(events), dawn, events, order, 0);
        var ordersToday := OrdersOn(orders, days, day);
        ghost var morning := events;
        MorningProduction(day, ordersToday, order);
        ContinuesOn(old(events), morning, events, order, 0);
        ghost var before := order;
        for index: nat := 0 to ordersToday
          invariant Kept(events, shelves) && Stocked(shelves, day) && Tagged(events, shelves, day + 1, day, order)
          invariant order == before + index && Continues(old(events), events, order)
        {
          order := order + 1;
          var late := rng.Below(5001);
          var arrival := day * DAY + OPENING + OpenFor(index, ordersToday) + late;
          ghost var es, sh := events, shelves;
          StockedSize(shelves, day);
          ghost var o := RetailSale(order, arrival);
          InTime(index, ordersToday, late);
          ServedIsKept(es, sh, events, shelves, order, arrival, day, o);
          ServedTagged(es, sh, events, shelves, order, arrival, o, day + 1, day);
          ServedIsOneCustomer(es, sh, events, shelves, order, arrival, o);
          ContinuesOn(old(events), es, events, before + index, 1);
        }
        ghost var evening := events;
        var paid := ShiftEvents(day);
        PaidIsQuiet(evening, shelves, paid, day);
        PaidTagged(evening, shelves, paid, day, order);
        events := events + paid;
        ContinuesOn(old(events), evening, events, order, 0);
        NextMorning(shelves, day);
        OrdersNext(orders, days, day);
      }
    }
  }

  // ----- identifiers -----

  /** No product twice on the truck. */
  predicate OneEach(queue: seq<Queued>) {
    forall i, j :: 0 <= i < j < |queue| ==> queue[i].lot.batch.product != queue[j].lot.batch.product
  }

  lemma {:induction false} LotIsListed(queue: seq<Queued>, i: nat)
    requires i < |queue|
    ensures |LotsFor(queue, queue[i].lot.batch.product)| >= 1
  {
    if i > 0 { LotIsListed(queue[1..], i - 1); }
  }

  lemma {:induction false} TwoLotsAreListed(queue: seq<Queued>, i: nat, j: nat)
    requires i < j < |queue| && queue[i].lot.batch.product == queue[j].lot.batch.product
    ensures |LotsFor(queue, queue[i].lot.batch.product)| >= 2
  {
    if i > 0 { TwoLotsAreListed(queue[1..], i - 1, j - 1); } else { LotIsListed(queue[1..], j - 1); }
  }

  lemma OneEachFromLots(queue: seq<Queued>, day: nat, perProduct: nat)
    requires forall q <- queue :: q.lot.batch.product < |PRODUCTS|
    requires forall p: nat :: p < |PRODUCTS| ==> Single(queue, day, p, perProduct)
    ensures OneEach(queue)
  {
    hide LotsFor, Baked;
    forall i, j | 0 <= i < j < |queue| ensures queue[i].lot.batch.product != queue[j].lot.batch.product {
      assert queue[i] in queue && Single(queue, day, queue[i].lot.batch.product, perProduct);
      if queue[i].lot.batch.product == queue[j].lot.batch.product { TwoLotsAreListed(queue, i, j); }
    }
  }

  lemma ProductionTagged(es: seq<Event>, shelves: seq<Shelf>, day: nat, slot: nat, sold: nat,
                         batch: BatchId, units: nat, started: int, baking: int, loading: int)
    requires TaggedSoFar(es, shelves, day, day, sold, slot, {}) && batch == BatchId(day, slot)
    ensures TaggedSoFar(es + Production(batch, units, started, baking, loading), shelves, day, day, sold, slot + 1, {})
  {
    hide TaggedSoFar;
    MorningGrows(es, Production(batch, units, started, baking, loading), shelves, day, day, sold, slot, {}, slot + 1, {});
  }

  lemma DeliveryTagged(es: seq<Event>, shelves: seq<Shelf>, day: nat, sold: nat, unloaded: set<nat>, e: Event, batch: BatchId)
    requires TaggedSoFar(es, shelves, day, day, sold, |PRODUCTS|, unloaded)
    requires e.id == EventId(OfBatch(batch), ShipmentDequeued) && batch.day == day && batch.product !in unloaded
    ensures TaggedSoFar(es + [e], shelves, day, day, sold, |PRODUCTS|, unloaded + {batch.product})
  {
    hide TaggedSoFar;
    MorningGrows(es, [e], shelves, day, day, sold, |PRODUCTS|, unloaded, |PRODUCTS|, unloaded + {batch.product});
  }

  lemma RestockedTagged(es: seq<Event>, before: seq<Shelf>, after: seq<Shelf>, day: nat, perProduct: nat, paid: nat, sold: nat, unloaded: set<nat>)
    requires TaggedSoFar(es, before, day, paid, sold, |PRODUCTS|, unloaded) && Restocked(before, after, day, perProduct)
    ensures Tagged(es, after, day + 1, paid, sold)
  {
    hide TaggedSoFar, Tagged;
    forall p: nat | p < |PRODUCTS| ensures Baked(after[p][|before[p]|], day, p, perProduct) {}
    MorningEnds(es, before, after, day, paid, sold, |PRODUCTS|, unloaded);
  }

  lemma PaidTagged(es: seq<Event>, shelves: seq<Shelf>, paid: seq<Event>, day: nat, sold: nat)
    requires Tagged(es, shelves, day + 1, day, sold) && |paid| == 7 && forall i: nat :: i < 7 ==> Paid(paid[i], day, i)
    ensures Tagged(es + paid, shelves, day + 1, day + 1, sold)
  {
    hide OffShelf, AllNumbered;
    SelfFewer(shelves);
    IssuedStays(es, shelves, shelves, day + 1, day, sold, day + 1, sold);
    forall f | f in paid ensures f.id.subject.OfShift? && f.id.subject.day == day {
      var i: nat :| i < 7 && paid[i] == f;
      assert Paid(paid[i], day, i);
    }
    IssuedGrows(es, paid, shelves, day + 1, day + 1, sold);
    forall e, f | e in es && f in paid ensures e.id != f.id { assert Issued(e.id, shelves, day + 1, day, sold); }
    forall i, j | 0 <= i < j < |paid| ensures paid[i].id != paid[j].id {
      assert Paid(paid[i], day, i) && Paid(paid[j], day, j);
    }
    DistinctGrows(es, paid);
  }

  // ----- the orders of a day -----

  /** How many orders a day gets: the first days take one more, until all are given out. */
  function OrdersOn(orders: nat, days: nat, day: nat): nat
    requires days > 0
  {
    orders / days + if day < orders % days then 1 else 0
  }

  function OrdersBefore(orders: nat, days: nat, day: nat): nat
    requires days > 0
  {
    day * (orders / days) + if day < orders % days then day else orders % days
  }

  lemma OrdersNext(orders: nat, days: nat, day: nat)
    requires days > 0
    ensures OrdersBefore(orders, days, day + 1) == OrdersBefore(orders, days, day) + OrdersOn(orders, days, day)
  {
    var base := orders / days;
    assert (day + 1) * base == day * base + base;
  }

  /** No order is lost or made up. */
  lemma OrdersInAll(orders: nat, days: nat)
    requires days > 0
    ensures OrdersBefore(orders, days, 0) == 0 && OrdersBefore(orders, days, days) == orders
  {
    assert orders == days * (orders / days) + orders % days;
  }

  /** How far into the day's opening an order arrives. */
  function OpenFor(index: nat, ordersToday: nat): nat {
    (index + 1) * WINDOW / (ordersToday + 1)
  }

  lemma InTime(index: nat, ordersToday: nat, late: nat)
    requires index < ordersToday && late <= 5000
    ensures OPENING + OpenFor(index, ordersToday) + late + 500 < DAY
  {
    hide OpenFor;
    InWindow(index, ordersToday);
  }

  predicate Paid(e: Event, day: nat, index: nat) {
    && e.id == EventId(OfShift(day, index), ShiftPaid) && e.prior == [] && e.draws == []
    && day * DAY + 13 * 60 * MINUTE <= e.time < day * DAY + 16 * 60 * MINUTE
  }

  lemma ContinuesFromSelf(es: seq<Event>)
    ensures Continues(es, es, 0)
  {
  }

  lemma PaidIsQuiet(es: seq<Event>, shelves: seq<Shelf>, paid: seq<Event>, day: nat)
    requires Kept(es, shelves) && |paid| == 7 && forall i: nat :: i < 7 ==> Paid(paid[i], day, i)
    ensures Kept(es + paid, shelves) && Continues(es, es + paid, 0)
  {
    hide Kept, Continues;
    forall e | e in paid ensures e.id.kind == ShiftPaid && e.prior == [] && e.draws == [] {
      var i: nat :| i < 7 && paid[i] == e;
      assert Paid(paid[i], day, i);
    }
    QuietKept(es, shelves, paid);
    ContinuesWith(es, paid);
  }

  lemma RestockedBy(before: seq<Shelf>, after: seq<Shelf>, queue: seq<Queued>, day: nat, perProduct: nat)
    requires |before| == |after| == |PRODUCTS|
    requires forall p: nat :: p < |PRODUCTS| ==> after[p] == before[p] + LotsFor(queue, p) && Single(queue, day, p, perProduct)
    ensures Restocked(before, after, day, perProduct)
  {
    hide LotsFor, Baked;
    forall p: nat | p < |PRODUCTS|
      ensures |after[p]| == |before[p]| + 1 && before[p] <= after[p] && Baked(after[p][|before[p]|], day, p, perProduct)
    {
      assert Single(queue, day, p, perProduct);
    }
  }

  lemma DonationKinds(lot: Lot, day: nat, d: nat)
    ensures forall e <- Donation(lot, day, d) :: e.id.kind != PurchaseRequested
  {
  }

  lemma StockedSize(shelves: seq<Shelf>, day: nat)
    requires Stocked(shelves, day)
    ensures |shelves| == |PRODUCTS|
  {
  }

  lemma InWindow(index: nat, n: nat)
    requires index < n
    ensures OpenFor(index, n) <= WINDOW
  {
    var x, q := (index + 1) * WINDOW, OpenFor(index, n);
    assert x == q * (n + 1) + x % (n + 1);
    MulGrows(index + 1, n + 1, WINDOW);
    if q > WINDOW { MulGrows(WINDOW + 1, q, n + 1); }
  }

  lemma QueueIsSorted(queue: seq<Queued>)
    ensures Sorted(Sooner, Sort(Sooner, queue))
    ensures (forall q :: q in Sort(Sooner, queue) <==> q in queue) && |Sort(Sooner, queue)| == |queue|
  {
    SortSorts(Sooner, queue);
    SortKeeps(Sooner, queue);
    assert |multiset(Sort(Sooner, queue))| == |Sort(Sooner, queue)| && |multiset(queue)| == |queue|;
  }

  lemma LastOfProduction(batch: BatchId, units: nat, started: int, baking: int, loading: int)
    ensures var more := Production(batch, units, started, baking, loading);
            more[2].id == EventId(OfBatch(batch), ShipmentEnqueued) && forall e <- more :: e.id.kind != PurchaseRequested
  {
  }

  lemma JustHappened(es: seq<Event>, e: Event, t: int)
    requires e.time < t
    ensures Happened(es + [e], e.id, t)
  {
    assert e in es + [e];
  }

  // ----- the whole program -----

  /** By time, and by identifier among events of one time. */
  function Earlier(ids: Ordering<EventId>): Ordering<Event> {
    (a: Event, b: Event) => a.time < b.time || (a.time == b.time && ids(a.id, b.id))
  }

  lemma EarlierIsTotal(ids: Ordering<EventId>)
    requires TotalOrder(ids)
    ensures TotalOrder(Earlier(ids))
  {
    var before := Earlier(ids);
    forall a, b ensures before(a, b) || before(b, a) { assert ids(a.id, b.id) || ids(b.id, a.id); }
    forall a, b, c | before(a, b) && before(b, c) ensures before(a, c) {
      if a.time == b.time == c.time { assert ids(a.id, b.id) && ids(b.id, c.id); }
    }
  }

  lemma SortedByTime(es: seq<Event>, ids: Ordering<EventId>)
    requires TotalOrder(ids)
    ensures var file := Sort(Earlier(ids), es); Sorted(Earlier(ids), file) && ByTime(file) && multiset(file) == multiset(es)
  {
    hide Sort;
    EarlierIsTotal(ids);
    SortSorts(Earlier(ids), es);
    SortKeeps(Earlier(ids), es);
    hide TotalOrder;
    var file := Sort(Earlier(ids), es);
    forall i, j | 0 <= i < j < |file| ensures file[i].time <= file[j].time { assert Earlier(ids)(file[i], file[j]); }
  }

  /** Simulates all days and puts the events in the order of the file: exactly the orders given are served, the units in
      the file balance with what is left, no identifier stands twice, and every event comes after each event it names. */
  method Generate(seed: nat, orders: nat, days: nat, ids: Ordering<EventId>) returns (file: seq<Event>, left: seq<Shelf>)
    requires days > 0 && TotalOrder(ids)
    ensures ByTime(file) && Sorted(Earlier(ids), file) && Distinct(file) && PriorsFirst(file)
    ensures Kept(file, left) && DrawsAfterStock(file) && Count(file, PurchaseRequested) == orders
  {
    hide Morning, TotalOrder, Sorted, PriorsFirst, AllIssued, AllNumbered, Balanced, Earlier, Sort, DrawsFreshLots, WellReserved, Ledger, SoldAsReserved,
         OnRecord, DrawsAfterStock;
    var simulation := new Simulation(seed);
    simulation.Run(orders, days);
    left := simulation.shelves;
    file := Sort(Earlier(ids), simulation.events);
    SortedByTime(simulation.events, ids);
    SoundShuffled(simulation.events, file, left);
    BookedShuffled(simulation.events, file, left);
    Shuffled(simulation.events, file);
    PriorsComeFirst(simulation.events, file);
    StockComesFirst(file);
  }
}
