/** A shelf of lots, oldest first: reserving from it and clearing what has expired. */
module BakeryShelf {
  datatype BatchId = BatchId(day: nat, product: nat)

  datatype Lot = Lot(batch: BatchId, bakedDay: nat, freshness: nat, unitCost: nat, units: nat)

  type Shelf = seq<Lot>

  function Units(s: Shelf): nat {
    if s == [] then 0 else s[0].units + Units(s[1..])
  }

  function Min(a: nat, b: nat): nat {
    if a < b then a else b
  }

  /** The shelf after its lots gave `q` units, the oldest first. */
  function Drawn(s: Shelf, q: nat): (r: Shelf)
    ensures |r| == |s|
  {
    if s == [] then [] else [s[0].(units := s[0].units - Min(s[0].units, q))] + Drawn(s[1..], q - Min(s[0].units, q))
  }

  /** Empty lots at the front are thrown away. */
  function Trimmed(s: Shelf): Shelf {
    if s != [] && s[0].units == 0 then Trimmed(s[1..]) else s
  }

  /** Lots given, with their amounts; lots that give nothing are not mentioned. */
  datatype Draw = Draw(lot: Lot, units: nat)

  function Draws(s: Shelf, q: nat): seq<Draw> {
    if s == [] || q == 0 then []
    else
      var rest := Draws(s[1..], q - Min(s[0].units, q));
      if Min(s[0].units, q) > 0 then [Draw(s[0], Min(s[0].units, q))] + rest else rest
  }

  function Total(draws: seq<Draw>): nat {
    if draws == [] then 0 else draws[0].units + Total(draws[1..])
  }

  datatype Reservation = NotEnough | Reserved(draws: seq<Draw>)

  method SumUnits(s: Shelf) returns (n: nat)
    ensures n == Units(s)
  {
    n := 0;
    for i := 0 to |s|
      invariant n + Units(s[i..]) == Units(s)
    {
      assert s[i..][1..] == s[i + 1..];
      n := n + s[i].units;
    }
  }

  method Trim(s: Shelf) returns (r: Shelf)
    ensures r == Trimmed(s)
  {
    r := s;
    while r != [] && r[0].units == 0
      invariant Trimmed(r) == Trimmed(s)
      decreases |r|
    {
      r := r[1..];
    }
  }

  /** All of the quantity from the oldest lots, or nothing. */
  method ReserveFifo(s: Shelf, quantity: nat) returns (r: Reservation, after: Shelf)
    ensures if Units(s) < quantity then r == NotEnough && after == s
            else r == Reserved(Draws(s, quantity)) && after == Trimmed(Drawn(s, quantity))
  {
    hide Draws, Drawn, Trimmed, Units;
    var have := SumUnits(s);
    if have < quantity {
      return NotEnough, s;
    }
    var remaining := quantity;
    var draws: seq<Draw> := [];
    after := s;
    var i := 0;
    while i < |s| && remaining > 0
      invariant 0 <= i <= |s| == |after|
      invariant draws + Draws(s[i..], remaining) == Draws(s, quantity)
      invariant after[..i] + Drawn(s[i..], remaining) == Drawn(s, quantity) && after[i..] == s[i..]
    {
      var take := Min(s[i].units, remaining);
      DrawFirst(s, i, remaining);
      ghost var was := after;
      if take > 0 {
        draws := draws + [Draw(s[i], take)];
        after := after[i := s[i].(units := s[i].units - take)];
      }
      assert was[..i] + [s[i].(units := s[i].units - take)] == after[..i + 1];
      remaining := remaining - take;
      i := i + 1;
    }
    DrawEnds(s[i..], remaining);
    assert after == after[..i] + after[i..];
    r := Reserved(draws);
    after := Trim(after);
  }

  lemma DrawFirst(s: Shelf, i: nat, q: nat)
    requires i < |s| && q > 0
    ensures var take := Min(s[i].units, q);
            && Draws(s[i..], q) == (if take > 0 then [Draw(s[i], take)] else []) + Draws(s[i + 1..], q - take)
            && Drawn(s[i..], q) == [s[i].(units := s[i].units - take)] + Drawn(s[i + 1..], q - take)
  {
    assert s[i..][0] == s[i] && s[i..][1..] == s[i + 1..];
  }

  lemma DrawEnds(s: Shelf, q: nat)
    requires s == [] || q == 0
    ensures Drawn(s, q) == s && Draws(s, q) == []
  {
    if q == 0 { DrawNothing(s); }
  }

  lemma {:induction false} DrawNothing(s: Shelf)
    ensures Drawn(s, 0) == s && Draws(s, 0) == []
  {
    if s != [] {
      DrawNothing(s[1..]);
      assert s == [s[0]] + s[1..];
    }
  }

  /** A reservation is for exactly the quantity asked, and the shelf has that much less. */
  lemma {:induction false} ReservedExactly(s: Shelf, q: nat)
    requires q <= Units(s)
    ensures Total(Draws(s, q)) == q && Units(Trimmed(Drawn(s, q))) == Units(s) - q
  {
    DrawnUnits(s, q);
    TrimmedUnits(Drawn(s, q));
  }

  lemma {:induction false} DrawnUnits(s: Shelf, q: nat)
    requires q <= Units(s)
    ensures Total(Draws(s, q)) == q && Units(Drawn(s, q)) == Units(s) - q
  {
    if s != [] {
      var take := Min(s[0].units, q);
      DrawnUnits(s[1..], q - take);
      assert Drawn(s, q)[1..] == Drawn(s[1..], q - take);
      if q > 0 && take > 0 { assert Draws(s, q)[1..] == Draws(s[1..], q - take); }
    }
  }

  lemma {:induction false} TrimmedUnits(s: Shelf)
    ensures Units(Trimmed(s)) == Units(s)
  {
    if s != [] && s[0].units == 0 { TrimmedUnits(s[1..]); }
  }

  /** Oldest first: a lot gives something only once every older lot is empty. */
  lemma {:induction false} OldestFirst(s: Shelf, q: nat, i: nat, j: nat)
    requires i < j < |s| && Drawn(s, q)[j].units != s[j].units
    ensures Drawn(s, q)[i].units == 0
  {
    var take := Min(s[0].units, q);
    if i > 0 {
      OldestFirst(s[1..], q - take, i - 1, j - 1);
    } else if take < s[0].units {
      DrawNothing(s[1..]);
    }
  }

  // ----- freshness -----

  function LotsOf(draws: seq<Draw>): Shelf {
    if draws == [] then [] else [draws[0].lot] + LotsOf(draws[1..])
  }

  predicate Fresh(lot: Lot, day: nat) {
    day - lot.bakedDay < lot.freshness
  }

  predicate AllFresh(s: Shelf, day: nat) {
    forall lot <- s :: Fresh(lot, day)
  }

  /** Whatever is drawn from a fresh shelf is fresh. */
  lemma {:induction false} DrawsFromShelf(s: Shelf, q: nat, day: nat)
    requires AllFresh(s, day)
    ensures AllFresh(LotsOf(Draws(s, q)), day)
  {
    if s != [] && q > 0 {
      var take := Min(s[0].units, q);
      DrawsFromShelf(s[1..], q - take, day);
      var rest := Draws(s[1..], q - take);
      assert s[0] in s;
      if take > 0 { assert ([Draw(s[0], take)] + rest)[1..] == rest; }
    }
  }

  /** Lots of one product, in the order they were baked; all keep equally long. */
  predicate InOrder(s: Shelf, product: nat, freshness: nat) {
    && (forall i :: 0 <= i < |s| ==> s[i].batch.product == product && s[i].freshness == freshness)
    && (forall i, j :: 0 <= i < j < |s| ==> s[i].bakedDay <= s[j].bakedDay)
  }

  /** The expired lots at the front. */
  function ExpiredFront(s: Shelf, day: nat): (n: nat)
    ensures n <= |s|
  {
    if s != [] && !Fresh(s[0], day) then 1 + ExpiredFront(s[1..], day) else 0
  }

  /** On a shelf in order, clearing the front clears every expired lot and only those. */
  lemma {:induction false} FrontIsEnough(s: Shelf, day: nat, product: nat, freshness: nat)
    requires InOrder(s, product, freshness)
    ensures forall i :: 0 <= i < |s| ==> (i < ExpiredFront(s, day) <==> !Fresh(s[i], day))
  {
    if s != [] && !Fresh(s[0], day) {
      FrontIsEnough(s[1..], day, product, freshness);
      forall i | 0 <= i < |s| ensures i < ExpiredFront(s, day) <==> !Fresh(s[i], day) {
        if i > 0 { assert s[i] == s[1..][i - 1]; }
      }
    }
  }

  /** Any order: clearing the front leaves no expired lot exactly if no fresh lot stands before an expired one. */
  lemma {:induction false} FrontIsEnoughIff(s: Shelf, day: nat)
    ensures AllFresh(s[ExpiredFront(s, day)..], day) <==>
            forall i, j :: 0 <= i < j < |s| && Fresh(s[i], day) ==> Fresh(s[j], day)
  {
    var n := ExpiredFront(s, day);
    FrontExpired(s, day);
    if AllFresh(s[n..], day) {
      forall i, j | 0 <= i < j < |s| && Fresh(s[i], day) ensures Fresh(s[j], day) {
        assert s[j] == s[n..][j - n];
      }
    } else {
      var k :| 0 <= k < |s[n..]| && !Fresh(s[n..][k], day);
      assert s[n + k] == s[n..][k] && k > 0;
    }
  }

  lemma {:induction false} FrontExpired(s: Shelf, day: nat)
    ensures var n := ExpiredFront(s, day);
            (forall i :: 0 <= i < n ==> !Fresh(s[i], day)) && (n < |s| ==> Fresh(s[n], day))
  {
    if s != [] && !Fresh(s[0], day) {
      FrontExpired(s[1..], day);
      var n := ExpiredFront(s[1..], day);
      forall i | 0 <= i < n + 1 ensures !Fresh(s[i], day) { if i > 0 { assert s[i] == s[1..][i - 1]; } }
      assert n < |s[1..]| ==> s[n + 1] == s[1..][n];
    }
  }

  /** Drawing and throwing away empty lots keeps the order and the freshness of what is left. */
  lemma {:induction false} DrawnKeeps(s: Shelf, q: nat)
    ensures forall i :: 0 <= i < |s| ==> Drawn(s, q)[i] == s[i].(units := Drawn(s, q)[i].units)
  {
    if s != [] { DrawnKeeps(s[1..], q - Min(s[0].units, q)); }
  }

  lemma {:induction false} TrimmedIsTail(s: Shelf) returns (k: nat)
    ensures k <= |s| && Trimmed(s) == s[k..]
  {
    if s != [] && s[0].units == 0 {
      k := TrimmedIsTail(s[1..]);
      assert s[1..][k..] == s[k + 1..];
      k := k + 1;
    } else {
      k := 0;
    }
  }

  /** What a reservation leaves is the younger part of the shelf, with fewer units. */
  lemma Remnant(s: Shelf, q: nat) returns (k: nat)
    ensures var r := Trimmed(Drawn(s, q));
            k <= |s| && |r| == |s| - k && forall i :: 0 <= i < |r| ==> r[i] == s[k + i].(units := r[i].units)
  {
    DrawnKeeps(s, q);
    k := TrimmedIsTail(Drawn(s, q));
  }

  predicate BakedBy(s: Shelf, day: nat) {
    forall lot <- s :: lot.bakedDay <= day
  }

  lemma ReserveKeepsOrder(s: Shelf, q: nat, product: nat, freshness: nat, day: nat)
    requires InOrder(s, product, freshness) && AllFresh(s, day) && BakedBy(s, day)
    ensures var r := Trimmed(Drawn(s, q)); InOrder(r, product, freshness) && AllFresh(r, day) && BakedBy(r, day)
  {
    var k := Remnant(s, q);
    var r := Trimmed(Drawn(s, q));
    forall i | 0 <= i < |r|
      ensures Fresh(r[i], day) && r[i].bakedDay == s[k + i].bakedDay <= day
      ensures r[i].batch.product == product && r[i].freshness == freshness
    {
      var x := s[k + i];
      assert x in s;
    }
  }

  /** After the day's clearing the shelf is fresh, in order, and has room for the day's lot at the end. */
  lemma ClearedShelf(s: Shelf, day: nat, product: nat, freshness: nat)
    requires InOrder(s, product, freshness) && (forall lot <- s :: lot.bakedDay < day)
    ensures var r := s[ExpiredFront(s, day)..]; InOrder(r, product, freshness) && AllFresh(r, day) && forall lot <- r :: lot.bakedDay < day
  {
    FrontIsEnough(s, day, product, freshness);
    var n := ExpiredFront(s, day);
    forall i | n <= i < |s| ensures s[n..][i - n] == s[i] {}
  }

  /** The units thrown off the front. */
  lemma {:induction false} ClearedUnits(s: Shelf, n: nat)
    requires n <= |s|
    ensures Units(s[..n]) + Units(s[n..]) == Units(s)
  {
    if n > 0 {
      ClearedUnits(s[1..], n - 1);
      assert s[..n][1..] == s[1..][..n - 1] && s[n..] == s[1..][n - 1..];
    } else {
      assert s[..0] == [] && s[0..] == s;
    }
  }

  lemma {:induction false} StockedUnits(s: Shelf, lot: Lot)
    ensures Units(s + [lot]) == Units(s) + lot.units
  {
    if s == [] {
      assert [lot][1..] == [];
    } else {
      assert (s + [lot])[1..] == s[1..] + [lot];
      StockedUnits(s[1..], lot);
    }
  }
}
