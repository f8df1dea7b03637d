/** The largest number of orders open at once, by one scan over their sorted starts and stops. */
module Sweep {
  import opened Sorting

  /** An order is open from its first event until its last: `start <= t < stop`. */
  datatype Interval = Interval(start: int, stop: int)

  datatype Event = Event(time: int, delta: int)

  predicate Proper(xs: seq<Interval>) {
    forall x <- xs :: x.start <= x.stop
  }

  function OpenAt(x: Interval, t: int): int {
    if x.start <= t < x.stop then 1 else 0
  }

  function CountAt(xs: seq<Interval>, t: int): int {
    if xs == [] then 0 else CountAt(xs[..|xs| - 1], t) + OpenAt(xs[|xs| - 1], t)
  }

  function EventsOf(xs: seq<Interval>): (es: seq<Event>)
    ensures forall e <- es :: e.delta == 1 || e.delta == -1
  {
    if xs == [] then []
    else EventsOf(xs[..|xs| - 1]) + [Event(xs[|xs| - 1].start, 1), Event(xs[|xs| - 1].stop, -1)]
  }

  /** By time; at one time, stops before starts. */
  predicate Before(a: Event, b: Event) {
    a.time < b.time || (a.time == b.time && a.delta <= b.delta)
  }

  function InOrder(es: seq<Event>): seq<Event> {
    Sort(Before, es)
  }

  predicate Ascending(es: seq<Event>) {
    forall i, j :: 0 <= i < j < |es| ==> Before(es[i], es[j])
  }

  lemma InOrderSorts(es: seq<Event>)
    ensures Ascending(InOrder(es))
    ensures forall e :: e in InOrder(es) <==> e in es
  {
    SortSorts(Before, es);
  }

  function Sum(es: seq<Event>): int {
    if es == [] then 0 else Sum(es[..|es| - 1]) + es[|es| - 1].delta
  }

  /** The changes up to and including time `t`. */
  function Level(es: seq<Event>, t: int): int {
    if es == [] then 0 else Level(es[1..], t) + Change(es[0], t)
  }

  function Change(e: Event, t: int): int {
    if e.time <= t then e.delta else 0
  }

  // ----- levels count the open intervals -----

  lemma {:induction false} LevelOfConcat(a: seq<Event>, b: seq<Event>, t: int)
    ensures Level(a + b, t) == Level(a, t) + Level(b, t)
  {
    if a == [] {
      assert a + b == b;
    } else {
      assert (a + b)[1..] == a[1..] + b;
      LevelOfConcat(a[1..], b, t);
    }
  }

  lemma {:induction false} LevelOfInsert(e: Event, es: seq<Event>, t: int)
    ensures Level(Insert(Before, e, es), t) == Level(es, t) + Change(e, t)
  {
    if es != [] {
      if Before(e, es[0]) {
        assert ([e] + es)[1..] == es;
      } else {
        LevelOfInsert(e, es[1..], t);
        assert ([es[0]] + Insert(Before, e, es[1..]))[1..] == Insert(Before, e, es[1..]);
      }
    }
  }

  lemma {:induction false} LevelOfSort(es: seq<Event>, t: int)
    ensures Level(InOrder(es), t) == Level(es, t)
  {
    hide Insert;
    if es != [] {
      var front, last := es[..|es| - 1], es[|es| - 1];
      LevelOfSort(front, t);
      LevelOfInsert(last, InOrder(front), t);
      assert es == front + [last];
      LevelOfConcat(front, [last], t);
    }
  }

  /** Starts minus stops up to `t` are the intervals open at `t`. */
  lemma {:induction false} LevelIsCount(xs: seq<Interval>, t: int)
    requires Proper(xs)
    ensures Level(EventsOf(xs), t) == CountAt(xs, t)
  {
    if xs != [] {
      var front, x := xs[..|xs| - 1], xs[|xs| - 1];
      LevelIsCount(front, t);
      var two := [Event(x.start, 1), Event(x.stop, -1)];
      LevelOfConcat(EventsOf(front), two, t);
      assert two[1..] == [Event(x.stop, -1)] && two[1..][1..] == [];
      assert Level(two[1..], t) == Level(two[1..][1..], t) + Change(two[1], t);
      assert x in xs;
    }
  }

  // ----- the scan meets every level -----

  /** The first `k` events are exactly those up to time `t`. */
  predicate Splits(es: seq<Event>, k: nat, t: int) {
    && k <= |es| && (forall i :: 0 <= i < k ==> es[i].time <= t) && (forall i :: k <= i < |es| ==> es[i].time > t)
  }

  lemma {:induction false} NoneUpTo(es: seq<Event>, t: int)
    requires forall e <- es :: e.time > t
    ensures Level(es, t) == 0
  {
    if es != [] {
      assert es[0] in es;
      NoneUpTo(es[1..], t);
    }
  }

  lemma {:induction false} AllUpTo(es: seq<Event>, t: int)
    requires forall e <- es :: e.time <= t
    ensures Level(es, t) == Sum(es)
  {
    if es != [] {
      var front, last := es[..|es| - 1], es[|es| - 1];
      AllUpTo(front, t);
      assert es == front + [last] && last in es;
      LevelOfConcat(front, [last], t);
    }
  }

  lemma SplitLevel(es: seq<Event>, k: nat, t: int)
    requires Splits(es, k, t)
    ensures Level(es, t) == Sum(es[..k])
  {
    assert es == es[..k] + es[k..];
    LevelOfConcat(es[..k], es[k..], t);
    AllUpTo(es[..k], t);
    NoneUpTo(es[k..], t);
  }

  lemma {:induction false} SplitExists(es: seq<Event>, t: int) returns (k: nat)
    requires Ascending(es)
    ensures Splits(es, k, t)
  {
    k := |es|;
    while k > 0 && es[k - 1].time > t
      invariant k <= |es| && forall i :: k <= i < |es| ==> es[i].time > t
    {
      k := k - 1;
    }
    forall i | 0 <= i < k ensures es[i].time <= t {
      if i < k - 1 { assert Before(es[i], es[k - 1]); }
    }
  }

  /** Where the running total is largest, no event of the same time follows: starts come last and would raise it. */
  lemma PeakSplits(es: seq<Event>, k: nat, best: int)
    requires Ascending(es) && (forall e <- es :: e.delta == 1 || e.delta == -1) && 0 < k <= |es|
    requires Sum(es[..k]) == best && Sum(es[..k - 1]) < best
    requires forall i :: 0 <= i <= |es| ==> Sum(es[..i]) <= best
    ensures Splits(es, k, es[k - 1].time)
  {
    var t := es[k - 1].time;
    assert es[..k][..k - 1] == es[..k - 1];
    if k < |es| {
      assert es[..k + 1][..k] == es[..k];
      assert Before(es[k - 1], es[k]) && es[k] in es;
      assert Sum(es[..k + 1]) <= best;
    }
    forall i | k <= i < |es| ensures es[i].time > t { if i > k { assert Before(es[k], es[i]); } }
    forall i | 0 <= i < k ensures es[i].time <= t { if i < k - 1 { assert Before(es[i], es[k - 1]); } }
  }

  /** One pass over the sorted starts and stops. */
  method MaxActive(xs: seq<Interval>) returns (best: int)
    requires Proper(xs)
    ensures forall t :: CountAt(xs, t) <= best
    ensures exists t :: CountAt(xs, t) == best
  {
    hide CountAt, Level, InOrder, EventsOf;
    var es := InOrder(EventsOf(xs));
    var active := 0;
    best := 0;
    ghost var peak := 0;
    for i := 0 to |es|
      invariant active == Sum(es[..i]) <= best && 0 <= peak <= i && Sum(es[..peak]) == best
      invariant peak > 0 ==> Sum(es[..peak - 1]) < best
      invariant peak == 0 ==> best == 0
      invariant forall j :: 0 <= j <= i ==> Sum(es[..j]) <= best
    {
      assert es[..i + 1][..i] == es[..i];
      active := active + es[i].delta;
      if active > best {
        best := active;
        peak := i + 1;
      }
    }
    ScanIsMax(xs, es, best, peak);
  }

  lemma ScanIsMax(xs: seq<Interval>, es: seq<Event>, best: int, peak: nat)
    requires Proper(xs) && es == InOrder(EventsOf(xs)) && peak <= |es| && Sum(es[..peak]) == best
    requires if peak == 0 then best == 0 else Sum(es[..peak - 1]) < best
    requires forall j :: 0 <= j <= |es| ==> Sum(es[..j]) <= best
    ensures forall t :: CountAt(xs, t) <= best
    ensures exists t :: CountAt(xs, t) == best
  {
    hide CountAt, Level, InOrder;
    InOrderSorts(EventsOf(xs));
    forall t ensures CountAt(xs, t) <= best {
      var k := SplitExists(es, t);
      Reached(xs, es, k, t);
    }
    var t := if peak > 0 then es[peak - 1].time else if es == [] then 0 else es[0].time - 1;
    if peak > 0 {
      PeakSplits(es, peak, best);
    } else {
      forall i | 0 <= i < |es| ensures es[i].time > t { if i > 0 { assert Before(es[0], es[i]); } }
    }
    Reached(xs, es, peak, t);
  }

  /** The running total after the events up to `t` is the number of intervals open at `t`. */
  lemma Reached(xs: seq<Interval>, es: seq<Event>, k: nat, t: int)
    requires Proper(xs) && es == InOrder(EventsOf(xs)) && Splits(es, k, t)
    ensures Sum(es[..k]) == CountAt(xs, t)
  {
    hide CountAt, Level, InOrder, EventsOf;
    SplitLevel(es, k, t);
    LevelOfSort(EventsOf(xs), t);
    LevelIsCount(xs, t);
  }
}
