/** The protobuf wire format: varints and tagged fields. */
module CodecWire {
  import opened Arithmetic
  import opened Bytes

  const TWO_64 := 0x1_0000_0000_0000_0000

  type U64 = v: nat | v < TWO_64

  datatype Error = UnexpectedEOF | VarintOverflow | ZeroField | UnsupportedWire(wire: nat)

  datatype Result<+T> = Ok(value: T) | Err(error: Error)

  // ----- writing -----

  function Varint(v: nat): (r: Data)
    ensures |r| > 0
  {
    if v < 128 then [v] else [v % 128 + 128] + Varint(v / 128)
  }

  /** Appends `v` as a varint, low seven bits first. */
  method PutVarint(dst: Data, v: U64) returns (r: Data)
    ensures r == dst + Varint(v)
  {
    r := dst;
    var rest: nat := v;
    while rest >= 128
      invariant r + Varint(rest) == dst + Varint(v)
    {
      assert Varint(rest) == [rest % 128 + 128] + Varint(rest / 128);
      assert r + Varint(rest) == r + [rest % 128 + 128] + Varint(rest / 128);
      r := r + [rest % 128 + 128];
      rest := rest / 128;
    }
    r := r + [rest];
  }

  function Tag(field: nat, wire: nat): (r: Data)
    ensures |r| > 0
  {
    Varint(field * 8 + wire)
  }

  /** Zero values are left out. */
  function StringField(field: nat, s: Data): Data {
    if s == [] then [] else MessageField(field, s)
  }

  function UintField(field: nat, v: U64): Data {
    if v == 0 then [] else Tag(field, 0) + Varint(v)
  }

  function BoolField(field: nat, v: bool): Data {
    if v then Tag(field, 0) + [1] else []
  }

  function MessageField(field: nat, msg: Data): Data {
    Tag(field, 2) + Varint(|msg|) + msg
  }

  // ----- reading -----

  /** What was read, and what is left. */
  datatype Read<+T> = Read(got: T, rest: Data)

  function Shift7(k: nat): (p: nat)
    ensures p >= 1
  {
    if k == 0 then 1 else 128 * Shift7(k - 1)
  }

  /** A varint whose first `k` bytes have been read; bits shifted out of the 64 are lost. */
  function VarintFrom(b: Data, k: nat): (r: Result<Read<nat>>)
    ensures r.Ok? ==> |r.value.rest| < |b|
    decreases |b|
  {
    if k >= 10 then Err(VarintOverflow)
    else if b == [] then Err(UnexpectedEOF)
    else
      var part := (b[0] % 128 * Shift7(k)) % TWO_64;
      if b[0] < 128 then Ok(Read(part, b[1..]))
      else
        match VarintFrom(b[1..], k + 1)
        case Err(e) => Err(e)
        case Ok(r) => Ok(Read(part + r.got, r.rest))
  }

  function TakeBytes(b: Data): (r: Result<Read<Data>>)
    ensures r.Ok? ==> |r.value.rest| < |b|
  {
    match VarintFrom(b, 0)
    case Err(e) => Err(e)
    case Ok(n) =>
      if n.got > |n.rest| then Err(UnexpectedEOF) else Ok(Read(n.rest[..n.got], n.rest[n.got..]))
  }

  /** What a field sets: a number, or the bytes of a string or message. A field of the other kind arrives as 0 or empty. */
  type Setter<!T> = (T, nat, nat, Data) -> Result<T>

  function ReadField<T>(b: Data, acc: T, put: Setter<T>): (r: Result<Read<T>>)
    requires b != []
    ensures r.Ok? ==> |r.value.rest| < |b|
  {
    match VarintFrom(b, 0)
    case Err(e) => Err(e)
    case Ok(t) =>
      var field, wire := t.got / 8, t.got % 8;
      if field == 0 then Err(ZeroField)
      else if wire == 0 then
        match VarintFrom(t.rest, 0)
        case Err(e) => Err(e)
        case Ok(v) => WithRest(put(acc, field, v.got, []), v.rest)
      else if wire == 2 then
        match TakeBytes(t.rest)
        case Err(e) => Err(e)
        case Ok(p) => WithRest(put(acc, field, 0, p.got), p.rest)
      else Err(UnsupportedWire(wire))
  }

  function WithRest<T>(r: Result<T>, rest: Data): Result<Read<T>> {
    match r
    case Err(e) => Err(e)
    case Ok(v) => Ok(Read(v, rest))
  }

  /** All fields of a message, in order, each put into `acc`. */
  function ReadFields<T>(b: Data, acc: T, put: Setter<T>): Result<T>
    decreases |b|
  {
    if b == [] then Ok(acc)
    else
      match ReadField(b, acc, put)
      case Err(e) => Err(e)
      case Ok(r) => ReadFields(r.rest, r.got, put)
  }

  function Onward<T>(r: Result<T>, rest: Data, put: Setter<T>): Result<T> {
    match r
    case Err(e) => Err(e)
    case Ok(x) => ReadFields(rest, x, put)
  }

  /** A cursor over a message. */
  class Decoder {
    const b: Data
    var i: nat

    ghost predicate Valid()
      reads this
    {
      i <= |b|
    }

    ghost function Left(): Data
      requires Valid()
      reads this
    {
      b[i..]
    }

    constructor (b: Data)
      ensures Valid() && this.b == b && Left() == b
    {
      this.b := b;
      i := 0;
    }

    method ReadVarint() returns (r: Result<U64>)
      requires Valid()
      modifies this
      ensures Valid() && i >= old(i)
      ensures match VarintFrom(old(Left()), 0)
              case Err(e) => r == Err(e)
              case Ok(x) => r == Ok(x.got) && Left() == x.rest && i > old(i)
    {
      hide VarintFrom, Shift7, Plus;
      var v: nat, shift: nat := 0, 1;
      ghost var start := Left();
      VarintStarts(start);
      for k: nat := 0 to 10
        invariant Valid() && i == old(i) + k && shift == Shift7(k) && v < (if k == 10 then TWO_64 else Shift7(k))
        invariant VarintFrom(start, 0) == Plus(v, VarintFrom(Left(), k))
      {
        VarintStep(Left(), k, v);
        if i >= |b| {
          return Err(UnexpectedEOF);
        }
        var c := b[i];
        assert Left()[0] == c && Left()[1..] == b[i + 1..];
        i := i + 1;
        PartFits(k, c, v);
        var part := (c % 128 * shift) % TWO_64;
        v := v + part;
        if c < 128 {
          return Ok(v);
        }
        ShiftMore(k);
        shift := shift * 128;
      }
      VarintTooLong(Left(), v);
      return Err(VarintOverflow);
    }

    method ReadBytes() returns (r: Result<Data>)
      requires Valid()
      modifies this
      ensures Valid() && i >= old(i)
      ensures match TakeBytes(old(Left()))
              case Err(e) => r == Err(e)
              case Ok(x) => r == Ok(x.got) && Left() == x.rest && i > old(i)
    {
      var n := ReadVarint();
      if n.Err? {
        return Err(n.error);
      }
      if n.value > |b| - i {
        return Err(UnexpectedEOF);
      }
      var p := b[i..i + n.value];
      assert Left()[..n.value] == p && Left()[n.value..] == b[i + n.value..];
      i := i + n.value;
      return Ok(p);
    }

    method Skip(wire: nat) returns (r: Result<()>)
      requires Valid() && wire !in {0, 2}
      ensures r == Err(UnsupportedWire(wire))
    {
      return Err(UnsupportedWire(wire));
    }
  }

  /** A varint's value on top of `v` already read. */
  function Plus(v: nat, r: Result<Read<nat>>): Result<Read<nat>> {
    match r
    case Err(e) => Err(e)
    case Ok(x) => Ok(Read(v + x.got, x.rest))
  }

  lemma VarintStarts(b: Data)
    ensures VarintFrom(b, 0) == Plus(0, VarintFrom(b, 0)) && Shift7(0) == 1
  {
  }

  /** One more byte of a varint. */
  lemma VarintStep(b: Data, k: nat, v: nat)
    requires k < 10
    ensures Plus(v, VarintFrom(b, k)) ==
            if b == [] then Err(UnexpectedEOF)
            else if b[0] < 128 then Ok(Read(v + (b[0] % 128 * Shift7(k)) % TWO_64, b[1..]))
            else Plus(v + (b[0] % 128 * Shift7(k)) % TWO_64, VarintFrom(b[1..], k + 1))
  {
    hide Shift7;
  }

  lemma VarintTooLong(b: Data, v: nat)
    ensures Plus(v, VarintFrom(b, 10)) == Err(VarintOverflow)
  {
  }

  lemma ShiftValues()
    ensures Shift7(0) == 1 && Shift7(9) == 0x8000_0000_0000_0000
    ensures forall k: nat :: k < 9 ==> Shift7(k) * 128 <= 0x8000_0000_0000_0000
  {
    assert Shift7(1) == 128 && Shift7(2) == 0x4000 && Shift7(3) == 0x20_0000 && Shift7(4) == 0x1000_0000;
    assert Shift7(5) == 0x8_0000_0000 && Shift7(6) == 0x400_0000_0000 && Shift7(7) == 0x2_0000_0000_0000;
    assert Shift7(8) == 0x100_0000_0000_0000;
  }

  /** The sum of the parts stays below the next power, and below 2^64 at the end. */
  lemma PartFits(k: nat, c: Byte, v: nat)
    requires k < 10 && v < Shift7(k)
    ensures v + (c % 128 * Shift7(k)) % TWO_64 < if k == 9 then TWO_64 else Shift7(k + 1)
    ensures v + (c % 128 * Shift7(k)) % TWO_64 < TWO_64
  {
    ShiftValues();
    var p, d := Shift7(k), c % 128;
    if k < 9 {
      assert d * p <= 127 * p;
      assert (d * p) % TWO_64 == d * p;
    } else {
      TopPart(d);
    }
  }

  lemma TopPart(d: nat)
    ensures (d * 0x8000_0000_0000_0000) % TWO_64 <= 0x8000_0000_0000_0000
  {
    assert d == 2 * (d / 2) + d % 2;
    assert d * 0x8000_0000_0000_0000 == (d / 2) * TWO_64 + (d % 2) * 0x8000_0000_0000_0000;
  }

  /** Reads one field and puts it. */
  method DecodeField<T>(d: Decoder, acc: T, put: Setter<T>) returns (r: Result<T>)
    requires d.Valid() && d.i < |d.b|
    modifies d
    ensures d.Valid()
    ensures match ReadField(old(d.Left()), acc, put)
            case Err(e) => r == Err(e)
            case Ok(x) => r == Ok(x.got) && d.Left() == x.rest && d.i > old(d.i)
  {
    hide VarintFrom, TakeBytes;
    var t := d.ReadVarint();
    if t.Err? {
      return Err(t.error);
    }
    var field, wire := t.value / 8, t.value % 8;
    if field == 0 {
      return Err(ZeroField);
    }
    if wire == 0 {
      var v := d.ReadVarint();
      if v.Err? {
        return Err(v.error);
      }
      return put(acc, field, v.value, []);
    } else if wire == 2 {
      var p := d.ReadBytes();
      if p.Err? {
        return Err(p.error);
      }
      return put(acc, field, 0, p.value);
    } else {
      var skipped := d.Skip(wire);
      return Err(skipped.error);
    }
  }

  /** Reads all fields of a message. */
  method DecodeFields<T>(b: Data, start: T, put: Setter<T>) returns (r: Result<T>)
    ensures r == ReadFields(b, start, put)
  {
    hide ReadField;
    var d := new Decoder(b);
    var acc := start;
    while d.i < |b|
      invariant d.Valid() && d.b == b && fresh(d)
      invariant ReadFields(b, start, put) == ReadFields(d.Left(), acc, put)
      decreases |b| - d.i
    {
      var outcome := DecodeField(d, acc, put);
      if outcome.Err? {
        return Err(outcome.error);
      }
      acc := outcome.value;
    }
    return Ok(acc);
  }

  // ----- what is written is read back -----

  lemma {:induction false} VarintReadsFrom(u: nat, k: nat, rest: Data)
    requires k < 10 && u * Shift7(k) < TWO_64
    ensures VarintFrom(Varint(u) + rest, k) == Ok(Read(u * Shift7(k), rest))
  {
    hide Varint, VarintFrom, Shift7;
    Halves(u, Shift7(k));
    if u < 128 {
      ShortVarint(u, k, rest);
    } else {
      TenBytes(u, k);
      ShiftMore(k);
      VarintReadsFrom(u / 128, k + 1, rest);
      LongVarint(u, k, rest, (u / 128) * Shift7(k + 1));
    }
  }

  lemma ShiftMore(k: nat)
    ensures Shift7(k + 1) == 128 * Shift7(k)
  {
  }

  lemma ShortVarint(u: nat, k: nat, rest: Data)
    requires k < 10 && u < 128 && u * Shift7(k) < TWO_64
    ensures VarintFrom(Varint(u) + rest, k) == Ok(Read(u * Shift7(k), rest))
  {
    hide Shift7;
    var b := Varint(u) + rest;
    assert b[0] == u && b[1..] == rest && b[0] % 128 == u;
    Whole(u * Shift7(k));
  }

  lemma LongVarint(u: nat, k: nat, rest: Data, more: nat)
    requires k < 10 && u >= 128 && (u % 128) * Shift7(k) < TWO_64
    requires VarintFrom(Varint(u / 128) + rest, k + 1) == Ok(Read(more, rest))
    ensures VarintFrom(Varint(u) + rest, k) == Ok(Read((u % 128) * Shift7(k) + more, rest))
  {
    hide Shift7, Varint, VarintFrom;
    VarintHead(u, rest);
    FromMore(Varint(u) + rest, k, more, rest);
  }

  lemma VarintHead(u: nat, rest: Data)
    requires u >= 128
    ensures var b := Varint(u) + rest; b[0] == u % 128 + 128 && b[0] % 128 == u % 128 && b[1..] == Varint(u / 128) + rest
  {
    hide VarintFrom;
    LowSeven(u);
    VarintMore(u, rest);
  }

  lemma LowSeven(u: nat)
    ensures (u % 128 + 128) % 128 == u % 128
  {
  }

  lemma VarintMore(u: nat, rest: Data)
    requires u >= 128
    ensures Varint(u) + rest == [u % 128 + 128] + (Varint(u / 128) + rest)
  {
    hide VarintFrom;
    var head, tail := [u % 128 + 128], Varint(u / 128);
    assert Varint(u) == head + tail;
    assert head + tail + rest == head + (tail + rest);
  }

  lemma FromMore(b: Data, k: nat, more: nat, rest: Data)
    requires k < 10 && b != [] && b[0] >= 128 && b[0] % 128 * Shift7(k) < TWO_64
    requires VarintFrom(b[1..], k + 1) == Ok(Read(more, rest))
    ensures VarintFrom(b, k) == Ok(Read(b[0] % 128 * Shift7(k) + more, rest))
  {
    hide Shift7, Varint;
    Whole(b[0] % 128 * Shift7(k));
  }

  lemma Whole(x: nat)
    requires x < TWO_64
    ensures x % TWO_64 == x
  {
  }

  lemma Halves(u: nat, p: nat)
    ensures u * p == (u % 128) * p + (u / 128) * (128 * p)
    ensures (u % 128) * p <= u * p && (u / 128) * (128 * p) <= u * p
  {
    assert u == (u / 128) * 128 + u % 128;
    assert (u / 128) * (128 * p) == (u / 128) * 128 * p;
    assert (u % 128) * p >= 0 && (u / 128) * (128 * p) >= 0;
  }

  lemma TenBytes(u: nat, k: nat)
    requires k < 10 && u >= 128 && u * Shift7(k) < TWO_64
    ensures k < 9
  {
    hide Shift7;
    ShiftValues();
    MulGrows(128, u, Shift7(k));
  }

  lemma VarintReads(v: U64, rest: Data)
    ensures VarintFrom(Varint(v) + rest, 0) == Ok(Read(v, rest))
  {
    hide Varint, VarintFrom;
    VarintReadsFrom(v, 0, rest);
  }

  lemma {:induction false} VarintSize(v: nat, k: nat)
    requires k < 10 && v * Shift7(k) < TWO_64
    ensures |Varint(v)| <= 10 - k
  {
    if v >= 128 {
      TenBytes(v, k);
      Halves(v, Shift7(k));
      VarintSize(v / 128, k + 1);
    }
  }

  lemma BytesRead(p: Data, rest: Data)
    requires |p| < TWO_64
    ensures TakeBytes(Varint(|p|) + p + rest) == Ok(Read(p, rest))
  {
    hide Varint, VarintFrom, TakeBytes;
    assert Varint(|p|) + p + rest == Varint(|p|) + (p + rest);
    VarintReads(|p|, p + rest);
    TakesLength(Varint(|p|) + (p + rest), |p|, p + rest);
    assert (p + rest)[..|p|] == p && (p + rest)[|p|..] == rest;
  }

  lemma TakesLength(b: Data, n: nat, rest: Data)
    requires VarintFrom(b, 0) == Ok(Read(n, rest)) && n <= |rest|
    ensures TakeBytes(b) == Ok(Read(rest[..n], rest[n..]))
  {
    hide VarintFrom;
  }

  lemma TagReads(field: nat, wire: nat, rest: Data)
    requires 0 < field < 16 && wire < 8
    ensures VarintFrom(Tag(field, wire) + rest, 0) == Ok(Read(field * 8 + wire, rest))
    ensures (field * 8 + wire) / 8 == field && (field * 8 + wire) % 8 == wire
  {
    hide Varint, VarintFrom;
    VarintReads(field * 8 + wire, rest);
  }

  /** A message field at the front is put first. */
  lemma MessageFieldRead<T>(field: nat, p: Data, rest: Data, acc: T, put: Setter<T>)
    requires 0 < field < 16 && |p| < TWO_64
    ensures ReadFields(MessageField(field, p) + rest, acc, put)
            == Onward(put(acc, field, 0, p), rest, put)
  {
    hide Varint, VarintFrom, TakeBytes;
    var b := MessageField(field, p) + rest;
    assert b == Tag(field, 2) + (Varint(|p|) + p + rest);
    TagReads(field, 2, Varint(|p|) + p + rest);
    BytesRead(p, rest);
  }

  lemma StringFieldRead<T>(field: nat, p: Data, rest: Data, acc: T, put: Setter<T>)
    requires 0 < field < 16 && |p| < TWO_64
    requires p == [] ==> put(acc, field, 0, []) == Ok(acc)
    ensures ReadFields(StringField(field, p) + rest, acc, put)
            == Onward(put(acc, field, 0, p), rest, put)
  {
    hide ReadFields, MessageField;
    if p == [] {
      assert StringField(field, p) + rest == rest;
    } else {
      MessageFieldRead(field, p, rest, acc, put);
    }
  }

  lemma UintFieldRead<T>(field: nat, v: U64, rest: Data, acc: T, put: Setter<T>)
    requires 0 < field < 16
    requires v == 0 ==> put(acc, field, 0, []) == Ok(acc)
    ensures ReadFields(UintField(field, v) + rest, acc, put)
            == Onward(put(acc, field, v, []), rest, put)
  {
    hide Varint, VarintFrom, TakeBytes, Tag;
    if v == 0 {
      assert UintField(field, v) + rest == rest;
    } else {
      assert UintField(field, v) + rest == Tag(field, 0) + (Varint(v) + rest);
      TagReads(field, 0, Varint(v) + rest);
      VarintReads(v, rest);
    }
  }

  lemma BoolFieldRead<T>(field: nat, v: bool, rest: Data, acc: T, put: Setter<T>)
    requires 0 < field < 16
    requires !v ==> put(acc, field, 0, []) == Ok(acc)
    ensures ReadFields(BoolField(field, v) + rest, acc, put)
            == Onward(put(acc, field, if v then 1 else 0, []), rest, put)
  {
    hide ReadFields, Tag;
    if v {
      assert BoolField(field, v) == UintField(field, 1);
      UintFieldRead(field, 1, rest, acc, put);
    } else {
      assert BoolField(field, v) + rest == rest;
    }
  }

  /** Fields with numbers the reader does not know are passed over, so newer writers can be read. */
  lemma UnknownFieldsSkipped<T>(field: nat, v: U64, p: Data, rest: Data, acc: T, put: Setter<T>)
    requires 0 < field && field * 8 + 2 < TWO_64 && |p| < TWO_64
    requires forall n, x :: put(acc, field, n, x) == Ok(acc)
    ensures ReadFields(Tag(field, 0) + Varint(v) + rest, acc, put) == ReadFields(rest, acc, put)
    ensures ReadFields(MessageField(field, p) + rest, acc, put) == ReadFields(rest, acc, put)
  {
    hide Varint, VarintFrom, TakeBytes;
    assert Tag(field, 0) + Varint(v) + rest == Tag(field, 0) + (Varint(v) + rest);
    VarintReads(field * 8, Varint(v) + rest);
    VarintReads(v, rest);
    assert MessageField(field, p) + rest == Tag(field, 2) + (Varint(|p|) + p + rest);
    VarintReads(field * 8 + 2, Varint(|p|) + p + rest);
    BytesRead(p, rest);
  }
}
