/** A simulated bakery: what is baked, stocked, sold and given away, as events in time. */
module Bakery {
  import opened Arithmetic
  import opened BakeryShelf

  const DAY := 86_400_000
  const MINUTE := 60_000
  const OPENING := 8 * 60 * MINUTE
  const TWO_32 := 0x1_0000_0000

  datatype Product = Product(price: nat, unitCost: nat, freshness: nat)

  /** Baguette, croissant, rye and sourdough. */
  const PRODUCTS: seq<Product> := [Product(450, 115, 2), Product(325, 95, 2), Product(700, 180, 3), Product(850, 225, 3)]

  datatype Kind =
    | BakeStarted | BatchBaked | ShipmentEnqueued | ShipmentDequeued | CharityTransfer | DonationRecorded
    | PurchaseRequested | StockoutReported | InventoryReserved | PaymentTendered | SaleCompleted | ShiftPaid

  datatype Subject = OfBatch(batch: BatchId) | OfOrder(order: nat) | OfShift(day: nat, index: nat)

  datatype EventId = EventId(subject: Subject, kind: Kind)

  datatype Event = Event(id: EventId, prior: seq<EventId>, time: int, product: nat, units: nat, draws: seq<Draw>)

  /** The linear congruential generator behind the simulation. */
  class Lcg {
    var state: nat

    constructor (seed: nat)
      ensures state == seed % TWO_32
    {
      state := seed % TWO_32;
    }

    method Below(bound: nat) returns (r: nat)
      requires bound > 0
      modifies this
      ensures state == (1664525 * old(state) + 1013904223) % TWO_32
      ensures r == state * bound / TWO_32 && r < bound
    {
      state := (1664525 * state + 1013904223) % TWO_32;
      BelowBound(state, bound);
      r := state * bound / TWO_32;
    }
  }

  lemma BelowBound(s: nat, bound: nat)
    requires s < TWO_32 && bound > 0
    ensures 0 <= s * bound / TWO_32 < bound
  {
    var q := s * bound / TWO_32;
    assert s * bound == q * TWO_32 + s * bound % TWO_32;
    MulGrows(s + 1, TWO_32, bound);
    OneLess(s + 1, bound);
  }

  // ----- what the events add up to -----

  /** Units of one product in events of one kind. */
  function Tally(es: seq<Event>, kind: Kind, product: nat): nat {
    if es == [] then 0
    else Tally(es[..|es| - 1], kind, product)
         + (var e := es[|es| - 1]; if e.id.kind == kind && e.product == product then e.units else 0)
  }

  lemma {:induction false} TallyOfConcat(a: seq<Event>, b: seq<Event>, kind: Kind, product: nat)
    ensures Tally(a + b, kind, product) == Tally(a, kind, product) + Tally(b, kind, product)
  {
    if b == [] {
      assert a + b == a;
    } else {
      assert (a + b)[..|a + b| - 1] == a + b[..|b| - 1];
      TallyOfConcat(a, b[..|b| - 1], kind, product);
    }
  }

  /** How many events of one kind there are. */
  function Count(es: seq<Event>, kind: Kind): nat {
    if es == [] then 0 else Count(es[..|es| - 1], kind) + if es[|es| - 1].id.kind == kind then 1 else 0
  }

  lemma {:induction false} CountOfConcat(a: seq<Event>, b: seq<Event>, kind: Kind)
    ensures Count(a + b, kind) == Count(a, kind) + Count(b, kind)
  {
    if b == [] {
      assert a + b == a;
    } else {
      assert (a + b)[..|a + b| - 1] == a + b[..|b| - 1];
      CountOfConcat(a, b[..|b| - 1], kind);
    }
  }

  lemma {:induction false} NoCount(es: seq<Event>, kind: Kind)
    requires forall e <- es :: e.id.kind != kind
    ensures Count(es, kind) == 0
  {
    if es != [] {
      assert es[|es| - 1] in es;
      NoCount(es[..|es| - 1], kind);
    }
  }

  /** `es'` goes on from `es` with this many further customers. */
  predicate Continues(es: seq<Event>, es': seq<Event>, customers: nat) {
    es <= es' && Count(es', PurchaseRequested) == Count(es, PurchaseRequested) + customers
  }

  lemma ContinuesWith(es: seq<Event>, more: seq<Event>)
    requires forall e <- more :: e.id.kind != PurchaseRequested
    ensures Continues(es, es + more, 0)
  {
    CountOfConcat(es, more, PurchaseRequested);
    NoCount(more, PurchaseRequested);
  }

  lemma ContinuesOn(a: seq<Event>, b: seq<Event>, c: seq<Event>, m: nat, n: nat)
    requires Continues(a, b, m) && Continues(b, c, n)
    ensures Continues(a, c, m + n)
  {
  }

  /** Units stocked are sold, donated or still on the shelf. */
  predicate Balanced(es: seq<Event>, shelves: seq<Shelf>) {
    && |shelves| == |PRODUCTS|
    && forall p: nat :: p < |shelves| ==>
                   Tally(es, ShipmentDequeued, p) == Tally(es, SaleCompleted, p) + Tally(es, DonationRecorded, p) + Units(shelves[p])
  }

  /** Before time `t` an event with this id happened. */
  predicate Happened(es: seq<Event>, id: EventId, t: int) {
    exists e <- es :: e.id == id && e.time < t
  }

  /** Every event comes later than the events it names as prior. */
  predicate Causal(es: seq<Event>) {
    forall e <- es, id <- e.prior :: Happened(es, id, e.time)
  }

  /** No reservation draws on a lot that has expired on its day. */
  predicate FreshDraws(es: seq<Event>) {
    forall e <- es :: DrawsFreshLots(e)
  }

  predicate DrawsFreshLots(e: Event) {
    e.draws != [] ==> e.id.kind == InventoryReserved && e.time >= 0 && AllFresh(LotsOf(e.draws), e.time / DAY)
  }

  predicate Sound(es: seq<Event>, shelves: seq<Shelf>) {
    Balanced(es, shelves) && Causal(es) && FreshDraws(es)
  }

  /** The shelves in the morning of a day: nothing baked on it or later. */
  predicate Morning(shelves: seq<Shelf>, day: nat) {
    |shelves| == |PRODUCTS|
    && forall p :: 0 <= p < |shelves| ==> InOrder(shelves[p], p, PRODUCTS[p].freshness) && forall lot <- shelves[p] :: lot.bakedDay < day
  }

  /** The shelves during a day: in order, fresh, nothing from the future. */
  predicate Stocked(shelves: seq<Shelf>, day: nat) {
    |shelves| == |PRODUCTS|
    && forall p :: 0 <= p < |shelves| ==>
               InOrder(shelves[p], p, PRODUCTS[p].freshness) && AllFresh(shelves[p], day) && BakedBy(shelves[p], day)
  }

  lemma HappenedLater(es: seq<Event>, more: seq<Event>, id: EventId, t: int)
    requires Happened(es, id, t) || Happened(more, id, t)
    ensures Happened(es + more, id, t)
  {
    if Happened(es, id, t) {
      var e :| e in es && e.id == id && e.time < t;
      assert e in es + more;
    } else {
      var e :| e in more && e.id == id && e.time < t;
      assert e in es + more;
    }
  }

  /** More events, each after its priors, keep time in order. */
  lemma CausalGrows(es: seq<Event>, more: seq<Event>)
    requires Causal(es)
    requires forall e <- more, id <- e.prior :: Happened(es, id, e.time) || Happened(more, id, e.time)
    ensures Causal(es + more)
  {
    forall e, id | e in es + more && id in e.prior ensures Happened(es + more, id, e.time) {
      if e in es { assert Happened(es, id, e.time); }
      HappenedLater(es, more, id, e.time);
    }
  }

  lemma FreshGrows(es: seq<Event>, more: seq<Event>)
    requires FreshDraws(es) && FreshDraws(more)
    ensures FreshDraws(es + more)
  {
    hide DrawsFreshLots;
    forall e | e in es + more ensures DrawsFreshLots(e) {
      if e !in es { assert e in more; }
    }
  }

  lemma DayOf(day: nat, t: nat)
    requires t < DAY
    ensures (day * DAY + t) / DAY == day
  {
  }

  // ----- sales -----

  /** A sale that finds the stock. */
  function Sale(order: nat, p: nat, q: nat, draws: seq<Draw>, at: int, d1: nat, d2: nat, d3: nat): seq<Event> {
    var id := (kind: Kind) => EventId(OfOrder(order), kind);
    [Event(id(PurchaseRequested), [], at, p, q, []),
     Event(id(InventoryReserved), [id(PurchaseRequested)], at + 80 + d1, p, q, draws),
     Event(id(PaymentTendered), [id(InventoryReserved)], at + 80 + d1 + 150 + d2, p, q, []),
     Event(id(SaleCompleted), [id(InventoryReserved), id(PaymentTendered)], at + 80 + d1 + 150 + d2 + 100 + d3, p, q, [])]
  }

  function Stockout(order: nat, p: nat, q: nat, at: int, d: nat): seq<Event> {
    var id := (kind: Kind) => EventId(OfOrder(order), kind);
    [Event(id(PurchaseRequested), [], at, p, q, []),
     Event(id(StockoutReported), [id(PurchaseRequested)], at + 80 + d, p, q, [])]
  }

  lemma SaleIsCausal(order: nat, p: nat, q: nat, draws: seq<Draw>, at: int, d1: nat, d2: nat, d3: nat)
    ensures Causal(Sale(order, p, q, draws, at, d1, d2, d3))
  {
    var es := Sale(order, p, q, draws, at, d1, d2, d3);
    forall e, id | e in es && id in e.prior ensures Happened(es, id, e.time) {
      assert es[0] in es && es[1] in es && es[2] in es;
    }
  }

  lemma StockoutIsCausal(order: nat, p: nat, q: nat, at: int, d: nat)
    ensures Causal(Stockout(order, p, q, at, d))
  {
    var es := Stockout(order, p, q, at, d);
    forall e, id | e in es && id in e.prior ensures Happened(es, id, e.time) {
      assert es[0] in es;
    }
  }

  lemma SaleTallies(order: nat, p: nat, q: nat, draws: seq<Draw>, at: int, d1: nat, d2: nat, d3: nat, kind: Kind, product: nat)
    requires kind in {ShipmentDequeued, SaleCompleted, DonationRecorded}
    ensures Tally(Sale(order, p, q, draws, at, d1, d2, d3), kind, product) == if kind == SaleCompleted && product == p then q else 0
  {
    var es := Sale(order, p, q, draws, at, d1, d2, d3);
    assert es == es[..3] + [es[3]] && es[..3] == es[..2] + [es[2]] && es[..2] == [es[0]] + [es[1]];
    TallyOfConcat(es[..3], [es[3]], kind, product);
    TallyOfConcat(es[..2], [es[2]], kind, product);
    TallyOfConcat([es[0]], [es[1]], kind, product);
    OneTally(es[0], kind, product);
    OneTally(es[1], kind, product);
    OneTally(es[2], kind, product);
    OneTally(es[3], kind, product);
  }

  lemma OneTally(e: Event, kind: Kind, product: nat)
    ensures Tally([e], kind, product) == if e.id.kind == kind && e.product == product then e.units else 0
  {
    assert [e][..0] == [];
  }

  lemma StockoutTallies(order: nat, p: nat, q: nat, at: int, d: nat, kind: Kind, product: nat)
    requires kind in {ShipmentDequeued, SaleCompleted, DonationRecorded}
    ensures Tally(Stockout(order, p, q, at, d), kind, product) == 0
  {
    var es := Stockout(order, p, q, at, d);
    assert es == [es[0]] + [es[1]];
    TallyOfConcat([es[0]], [es[1]], kind, product);
    OneTally(es[0], kind, product);
    OneTally(es[1], kind, product);
  }

  datatype Order = Order(product: nat, quantity: nat, d1: nat, d2: nat, d3: nat)

  predicate Possible(o: Order) {
    o.product < |PRODUCTS| && 1 <= o.quantity <= 6 && o.d1 <= 420 && o.d2 <= 850 && o.d3 <= 400
  }

  /** What one customer did: bought from the oldest lots, or found too little. */
  predicate Served(es: seq<Event>, shelves: seq<Shelf>, es': seq<Event>, shelves': seq<Shelf>, order: nat, at: int, o: Order) {
    && Possible(o) && |shelves| == |PRODUCTS|
    && var p, q := o.product, o.quantity;
       if Units(shelves[p]) < q
       then es' == es + Stockout(order, p, q, at, o.d1) && shelves' == shelves
       else es' == es + Sale(order, p, q, Draws(shelves[p], q), at, o.d1, o.d2, o.d3)
            && shelves' == shelves[p := Trimmed(Drawn(shelves[p], q))]
  }

  lemma ServedIsOneCustomer(es: seq<Event>, shelves: seq<Shelf>, es': seq<Event>, shelves': seq<Shelf>, order: nat, at: int, o: Order)
    requires Served(es, shelves, es', shelves', order, at, o)
    ensures Continues(es, es', 1)
  {
    hide Units, Trimmed, Drawn, Draws, Count, Sale, Stockout;
    var p, q := o.product, o.quantity;
    if Units(shelves[p]) < q {
      StockoutIsOneRequest(order, p, q, at, o.d1);
      OneMoreCustomer(es, Stockout(order, p, q, at, o.d1));
    } else {
      SaleIsOneRequest(order, p, q, Draws(shelves[p], q), at, o.d1, o.d2, o.d3);
      OneMoreCustomer(es, Sale(order, p, q, Draws(shelves[p], q), at, o.d1, o.d2, o.d3));
    }
  }

  /** A request, and other events. */
  predicate OneRequest(more: seq<Event>) {
    more != [] && more[0].id.kind == PurchaseRequested && forall e <- more[1..] :: e.id.kind != PurchaseRequested
  }

  lemma SaleIsOneRequest(order: nat, p: nat, q: nat, draws: seq<Draw>, at: int, d1: nat, d2: nat, d3: nat)
    ensures OneRequest(Sale(order, p, q, draws, at, d1, d2, d3))
  {
  }

  lemma StockoutIsOneRequest(order: nat, p: nat, q: nat, at: int, d: nat)
    ensures OneRequest(Stockout(order, p, q, at, d))
  {
  }

  lemma OneMoreCustomer(es: seq<Event>, more: seq<Event>)
    requires OneRequest(more)
    ensures Continues(es, es + more, 1)
  {
    var first, rest := [more[0]], more[1..];
    assert more == first + rest && first[..0] == [];
    CountOfConcat(es, more, PurchaseRequested);
    CountOfConcat(first, rest, PurchaseRequested);
    NoCount(rest, PurchaseRequested);
  }

  lemma ServedIsSound(es: seq<Event>, shelves: seq<Shelf>, es': seq<Event>, shelves': seq<Shelf>, order: nat, at: int, day: nat, o: Order)
    requires Served(es, shelves, es', shelves', order, at, o)
    requires Sound(es, shelves) && Stocked(shelves, day) && day * DAY <= at && at + 500 < day * DAY + DAY
    ensures Sound(es', shelves') && Stocked(shelves', day)
  {
    hide Tally, Sale, Stockout, Causal, FreshDraws, InOrder, AllFresh, BakedBy, Sound, Trimmed, Drawn, Units, Draws;
    var p, q := o.product, o.quantity;
    if Units(shelves[p]) < q {
      StockoutSound(es, shelves, order, p, q, at, o.d1);
    } else {
      SaleSound(es, shelves, order, p, q, at, o.d1, o.d2, o.d3, day);
      ReserveKeepsOrder(shelves[p], q, p, PRODUCTS[p].freshness, day);
    }
  }

  lemma StockoutSound(es: seq<Event>, shelves: seq<Shelf>, order: nat, p: nat, q: nat, at: int, d: nat)
    requires Sound(es, shelves)
    ensures Sound(es + Stockout(order, p, q, at, d), shelves)
  {
    hide Tally, Happened;
    var more := Stockout(order, p, q, at, d);
    StockoutIsCausal(order, p, q, at, d);
    CausalGrows(es, more);
    FreshGrows(es, more);
    forall kind, product | kind in {ShipmentDequeued, SaleCompleted, DonationRecorded}
      ensures Tally(es + more, kind, product) == Tally(es, kind, product)
    {
      StockoutTallies(order, p, q, at, d, kind, product);
      TallyOfConcat(es, more, kind, product);
    }
  }

  lemma SaleSound(es: seq<Event>, shelves: seq<Shelf>, order: nat, p: nat, q: nat, at: int, d1: nat, d2: nat, d3: nat, day: nat)
    requires Sound(es, shelves) && Stocked(shelves, day) && p < |PRODUCTS| && 0 < q <= Units(shelves[p])
    requires day * DAY <= at && at + 80 + d1 < day * DAY + DAY
    ensures Sound(es + Sale(order, p, q, Draws(shelves[p], q), at, d1, d2, d3), shelves[p := Trimmed(Drawn(shelves[p], q))])
  {
    hide Tally, Happened, Drawn, Draws, Trimmed, Units, Sale, Causal, InOrder, Stocked;
    var draws := Draws(shelves[p], q);
    var more := Sale(order, p, q, draws, at, d1, d2, d3);
    SaleIsCausal(order, p, q, draws, at, d1, d2, d3);
    CausalGrows(es, more);
    SaleIsFresh(shelves, order, p, q, at, d1, d2, d3, day);
    FreshGrows(es, more);
    ReservedExactly(shelves[p], q);
    forall kind, product | kind in {ShipmentDequeued, SaleCompleted, DonationRecorded}
      ensures Tally(es + more, kind, product) == Tally(es, kind, product) + if kind == SaleCompleted && product == p then q else 0
    {
      SaleTallies(order, p, q, draws, at, d1, d2, d3, kind, product);
      TallyOfConcat(es, more, kind, product);
    }
  }

  lemma SaleIsFresh(shelves: seq<Shelf>, order: nat, p: nat, q: nat, at: int, d1: nat, d2: nat, d3: nat, day: nat)
    requires Stocked(shelves, day) && p < |PRODUCTS|
    requires day * DAY <= at && at + 80 + d1 < day * DAY + DAY
    ensures FreshDraws(Sale(order, p, q, Draws(shelves[p], q), at, d1, d2, d3))
  {
    hide Draws, InOrder;
    DrawsFromShelf(shelves[p], q, day);
    DayOf(day, at + 80 + d1 - day * DAY);
    assert AllFresh(shelves[p], day);
  }

  // ----- donations -----

  function Donation(lot: Lot, day: nat, d: nat): seq<Event> {
    var id := (kind: Kind) => EventId(OfBatch(lot.batch), kind);
    var at := day * DAY + 4 * 60 * MINUTE;
    [Event(id(CharityTransfer), [], at, lot.batch.product, lot.units, []),
     Event(id(DonationRecorded), [id(CharityTransfer)], at + 250 + d, lot.batch.product, lot.units, [])]
  }

  lemma DonationSound(es: seq<Event>, shelves: seq<Shelf>, p: nat, day: nat, d: nat)
    requires Sound(es, shelves) && p < |shelves| && shelves[p] != [] && shelves[p][0].batch.product == p
    ensures Sound(es + Donation(shelves[p][0], day, d), shelves[p := shelves[p][1..]])
  {
    hide Tally, FreshDraws, Happened;
    var lot := shelves[p][0];
    var more := Donation(lot, day, d);
    assert more[0] in more && Happened(more, more[0].id, more[1].time) by { DonationInTime(lot, day, d); }
    CausalGrows(es, more);
    DonationUndrawn(lot, day, d);
    FreshGrows(es, more);
    assert more == [more[0]] + [more[1]];
    forall kind, product | kind in {ShipmentDequeued, SaleCompleted, DonationRecorded}
      ensures Tally(es + more, kind, product) == Tally(es, kind, product) + if kind == DonationRecorded && product == p then lot.units else 0
    {
      TallyOfConcat(es, more, kind, product);
      TallyOfConcat([more[0]], [more[1]], kind, product);
      OneTally(more[0], kind, product);
      OneTally(more[1], kind, product);
    }
  }

  lemma DonationInTime(lot: Lot, day: nat, d: nat)
    ensures var m := Donation(lot, day, d); Happened(m, m[0].id, m[1].time)
  {
    var m := Donation(lot, day, d);
    assert m[0] in m;
  }

  lemma DonationUndrawn(lot: Lot, day: nat, d: nat)
    ensures FreshDraws(Donation(lot, day, d))
  {
  }

  /** An empty lot leaves without a trace. */
  lemma EmptyLotLeaves(es: seq<Event>, shelves: seq<Shelf>, p: nat)
    requires Sound(es, shelves) && p < |shelves| && shelves[p] != [] && shelves[p][0].units == 0
    ensures Sound(es, shelves[p := shelves[p][1..]])
  {
    hide Tally, Causal, FreshDraws;
  }

  // ----- deliveries -----

  /** One batch delivered: the shelf has it and the dequeue event says so. */
  lemma DeliverySound(es: seq<Event>, shelves: seq<Shelf>, lot: Lot, e: Event)
    requires Sound(es, shelves) && lot.batch.product < |shelves|
    requires e.id.kind == ShipmentDequeued && e.product == lot.batch.product && e.units == lot.units && e.draws == []
    requires forall id <- e.prior :: Happened(es, id, e.time)
    ensures var p := lot.batch.product; Sound(es + [e], shelves[p := shelves[p] + [lot]])
  {
    hide Tally, Happened, Units;
    CausalGrows(es, [e]);
    FreshGrows(es, [e]);
    StockedUnits(shelves[lot.batch.product], lot);
    forall kind, product ensures Tally(es + [e], kind, product) == Tally(es, kind, product) + Tally([e], kind, product) {
      TallyOfConcat(es, [e], kind, product);
      OneTally(e, kind, product);
    }
    forall kind, product ensures Tally([e], kind, product) == if kind == ShipmentDequeued && product == e.product then e.units else 0 {
      OneTally(e, kind, product);
    }
  }

  /** Events that move no stock. */
  lemma QuietSound(es: seq<Event>, shelves: seq<Shelf>, more: seq<Event>)
    requires Sound(es, shelves)
    requires forall e <- more :: e.id.kind !in {ShipmentDequeued, SaleCompleted, DonationRecorded} && e.draws == []
    requires forall e <- more, id <- e.prior :: Happened(es, id, e.time) || Happened(more, id, e.time)
    ensures Sound(es + more, shelves)
  {
    hide Tally, Happened;
    CausalGrows(es, more);
    FreshGrows(es, more);
    forall kind, product | kind in {ShipmentDequeued, SaleCompleted, DonationRecorded}
      ensures Tally(es + more, kind, product) == Tally(es, kind, product)
    {
      TallyOfConcat(es, more, kind, product);
      NoTally(more, kind, product);
    }
  }

  lemma {:induction false} NoTally(es: seq<Event>, kind: Kind, product: nat)
    requires forall e <- es :: e.id.kind != kind
    ensures Tally(es, kind, product) == 0
  {
    if es != [] {
      assert es[|es| - 1] in es;
      NoTally(es[..|es| - 1], kind, product);
    }
  }
}
