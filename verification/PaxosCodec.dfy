/** A line format with one byte that only starts a record: what `GoodCodec` asks of a codec can be had. */
module PaxosCodec {
  import opened Bytes
  import opened Options
  import opened PaxosStorage
  import opened PaxosWal

  const START: Byte := 1
  const UNIT: Byte := 2
  const STOP: Byte := 3

  function Units(n: nat): Data {
    if n == 0 then [STOP] else [UNIT] + Units(n - 1)
  }

  function Marks(ns: seq<nat>): Data {
    if ns == [] then [] else Units(ns[0]) + Marks(ns[1..])
  }

  function Text(s: string): seq<nat> {
    [|s|] + seq(|s|, i requires 0 <= i < |s| => s[i] as int)
  }

  function ValueNumbers(v: Value): seq<nat> {
    Text(v.key) + (Text(v.value) + Text(v.requestID))
  }

  function Head(rec: Record): seq<nat> {
    match rec
    case PromiseRecord(slot, b) => [0, slot, b.counter]
    case AcceptRecord(slot, b, _) => [1, slot, b.counter]
    case CommitRecord(slot, _) => [2, slot]
  }

  /** The texts of a record. */
  function Rest(rec: Record): seq<nat> {
    match rec
    case PromiseRecord(_, b) => Text(b.node) + []
    case AcceptRecord(_, b, v) => Text(b.node) + ValueNumbers(v)
    case CommitRecord(_, v) => ValueNumbers(v)
  }

  function Numbers(rec: Record): seq<nat> {
    Head(rec) + Rest(rec)
  }

  function Encode(rec: Record): Data {
    [START] + Marks(Numbers(rec))
  }

  ghost function Decode(d: Data): Option<Record> {
    if rec :| Encode(rec) == d then Some(rec) else None
  }

  ghost function Plain(): Codec {
    Codec(Encode, Decode)
  }

  // ----- an encoding is read in only one way -----

  lemma {:induction false} UnitsCancel(m: nat, n: nat, x: Data, y: Data)
    requires Units(m) + x == Units(n) + y
    ensures m == n && x == y
  {
    assert (Units(m) + x)[0] == Units(m)[0] && (Units(n) + y)[0] == Units(n)[0];
    if m == 0 {
      assert (Units(m) + x)[1..] == x && (Units(n) + y)[1..] == y;
    } else {
      assert (Units(m) + x)[1..] == Units(m - 1) + x && (Units(n) + y)[1..] == Units(n - 1) + y;
      UnitsCancel(m - 1, n - 1, x, y);
    }
  }

  lemma {:induction false} MarksCancel(a: seq<nat>, b: seq<nat>)
    requires Marks(a) == Marks(b)
    ensures a == b
  {
    if a != [] && b != [] {
      UnitsCancel(a[0], b[0], Marks(a[1..]), Marks(b[1..]));
      MarksCancel(a[1..], b[1..]);
      assert a == [a[0]] + a[1..] && b == [b[0]] + b[1..];
    }
  }

  lemma TextCancel(a: string, b: string, x: seq<nat>, y: seq<nat>)
    requires Text(a) + x == Text(b) + y
    ensures a == b && x == y
  {
    var s, t := Text(a) + x, Text(b) + y;
    assert s[0] == |a| && t[0] == |b|;
    forall i | 0 <= i < |a| ensures a[i] == b[i] {
      assert s[i + 1] == a[i] as int && t[i + 1] == b[i] as int;
    }
    assert s[|a| + 1..] == x && t[|b| + 1..] == y;
  }

  lemma ValueCancel(v: Value, w: Value)
    requires ValueNumbers(v) == ValueNumbers(w)
    ensures v == w
  {
    hide Text;
    TextCancel(v.key, w.key, Text(v.value) + Text(v.requestID), Text(w.value) + Text(w.requestID));
    TextCancel(v.value, w.value, Text(v.requestID), Text(w.requestID));
    assert Text(v.requestID) + [] == Text(v.requestID) && Text(w.requestID) + [] == Text(w.requestID);
    TextCancel(v.requestID, w.requestID, [], []);
  }

  lemma NumbersCancel(r: Record, q: Record)
    requires Numbers(r) == Numbers(q)
    ensures r == q
  {
    hide Text, ValueNumbers;
    var s, t := Head(r) + Rest(r), Head(q) + Rest(q);
    assert s[0] == Head(r)[0] && t[0] == Head(q)[0];
    assert s[1] == Head(r)[1] && t[1] == Head(q)[1];
    assert |Head(r)| == |Head(q)|;
    assert s[|Head(r)|..] == Rest(r) && t[|Head(q)|..] == Rest(q);
    assert Head(r) == s[..|Head(r)|] && Head(q) == t[..|Head(q)|];
    match r
    case PromiseRecord(_, b) => TextCancel(b.node, q.ballot.node, [], []);
    case AcceptRecord(_, b, v) =>
      TextCancel(b.node, q.ballot.node, ValueNumbers(v), ValueNumbers(q.value));
      ValueCancel(v, q.value);
    case CommitRecord(_, v) => ValueCancel(v, q.value);
  }

  lemma EncodeCancel(r: Record, q: Record)
    requires Encode(r) == Encode(q)
    ensures r == q
  {
    hide Numbers;
    assert Encode(r)[1..] == Marks(Numbers(r)) && Encode(q)[1..] == Marks(Numbers(q));
    MarksCancel(Numbers(r), Numbers(q));
    NumbersCancel(r, q);
  }

  // ----- only the first byte is a start -----

  predicate Inner(d: Data) {
    forall b <- d :: b == UNIT || b == STOP
  }

  lemma {:induction false} UnitsInner(n: nat)
    ensures Inner(Units(n))
  {
    if n > 0 { UnitsInner(n - 1); }
  }

  lemma {:induction false} MarksInner(ns: seq<nat>)
    ensures Inner(Marks(ns))
  {
    if ns != [] {
      UnitsInner(ns[0]);
      MarksInner(ns[1..]);
    }
  }

  lemma {:induction false} FragmentsStart(c: Codec, pieces: seq<Data>)
    requires c == Plain() && pieces != [] && forall p <- pieces :: IsFragment(c, p)
    ensures Flatten(pieces) != [] && Flatten(pieces)[0] == START
  {
    hide Numbers;
    var front, last := pieces[..|pieces| - 1], pieces[|pieces| - 1];
    assert last in pieces;
    var rec :| last <= c.encode(rec);
    assert last[0] == Encode(rec)[0];
    if front != [] {
      FragmentsStart(c, front);
    } else {
      assert Flatten(pieces) == last;
    }
  }

  lemma StartsFirst(rec: Record)
    ensures Encode(rec) != [] && Encode(rec)[0] == START
  {
  }

  lemma StartsOnce(rec: Record, i: nat)
    requires 0 < i < |Encode(rec)|
    ensures Encode(rec)[i] != START && Encode(rec)[i] != NEWLINE
  {
    MarksInner(Numbers(rec));
    assert Marks(Numbers(rec))[i - 1] in Marks(Numbers(rec));
  }

  lemma PlainIsGood()
    ensures GoodCodec(Plain())
  {
    hide Numbers, Marks, Encode;
    var c := Plain();
    forall rec ensures NEWLINE !in c.encode(rec) && c.decode(c.encode(rec)) == Some(rec) {
      StartsFirst(rec);
      forall i | 0 < i < |Encode(rec)| ensures Encode(rec)[i] != NEWLINE { StartsOnce(rec, i); }
      assert Decode(Encode(rec)).Some?;
      EncodeCancel(rec, Decode(Encode(rec)).value);
    }
    forall t, rec | t != [] && Fragments(c, t) ensures c.decode(t + c.encode(rec)) == None {
      var pieces: seq<Data> :| t == Flatten(pieces) && forall p <- pieces :: IsFragment(c, p);
      FragmentsStart(c, pieces);
      var d := t + Encode(rec);
      StartsFirst(rec);
      assert d[|t|] == START;
      forall q ensures Encode(q) != d {
        if |t| < |Encode(q)| { StartsOnce(q, |t|); }
      }
    }
  }
}
