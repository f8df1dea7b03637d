/** Frames on a link: four bytes of length, most significant first, then an encoded envelope. */
module CodecFrames {
  import opened Bytes
  import opened CodecWire
  import opened CodecMessages

  const MAX_FRAME := 0x10_0000

  datatype FrameError = TooLarge | ShortWrite | WriteError | EOF | Malformed(error: Error)

  datatype Outcome<+T> = Success(value: T) | Failure(error: FrameError)

  function BigEndian(n: nat): (h: Data)
    requires n < 0x1_0000_0000
    ensures |h| == 4
  {
    var high := n / 0x100;
    var higher := high / 0x100;
    [higher / 0x100, higher % 0x100, high % 0x100, n % 0x100]
  }

  function Number(h: Data): nat
    requires |h| == 4
  {
    0x100 * (0x100 * (0x100 * (h[0] as int) + h[1]) + h[2]) + h[3]
  }

  lemma HeaderReadsBack(n: nat)
    requires n < 0x1_0000_0000
    ensures Number(BigEndian(n)) == n
  {
  }

  function Frame(e: Envelope): Data
    requires |Marshal(e)| <= MAX_FRAME
  {
    BigEndian(|Marshal(e)|) + Marshal(e)
  }

  /** A connection that may take only part of what it is given; `plan` tells what its next writes do. */
  datatype WriteStep = Takes(most: nat) | Breaks(after: nat)

  class Connection {
    var sent: Data
    var plan: seq<WriteStep>
    ghost var failed: bool  // some write broke off or took nothing

    constructor (plan: seq<WriteStep>)
      ensures sent == [] && this.plan == plan && !failed
    {
      sent, this.plan, failed := [], plan, false;
    }

    method Write(b: Data) returns (n: nat, broken: bool)
      modifies this
      ensures n <= |b| && sent == old(sent) + b[..n]
      ensures failed == (old(failed) || broken || (n == 0 && b != []))
    {
      if plan == [] {
        n, broken := |b|, false;
      } else {
        n := if plan[0].Takes? then plan[0].most else plan[0].after;
        n := if n > |b| then |b| else n;
        broken := plan[0].Breaks?;
        plan := plan[1..];
      }
      sent := sent + b[..n];
      failed := failed || broken || (n == 0 && b != []);
    }
  }

  /** Writes everything or reports an error; either way what went out is a beginning of `b`. */
  method WriteAll(c: Connection, b: Data) returns (r: Outcome<()>)
    requires !c.failed
    modifies c
    ensures r.Success? <==> !c.failed
    ensures r.Success? ==> c.sent == old(c.sent) + b
    ensures exists k: nat :: k <= |b| && c.sent == old(c.sent) + b[..k]
  {
    var i: nat := 0;
    while i < |b|
      invariant i <= |b| && c.sent == old(c.sent) + b[..i] && !c.failed
    {
      var n, broken := c.Write(b[i..]);
      assert b[..i] + b[i..][..n] == b[..i + n];
      i := i + n;
      if broken {
        return Failure(WriteError);
      }
      if n == 0 {
        return Failure(ShortWrite);
      }
    }
    assert b[..|b|] == b;
    return Success(());
  }

  method WriteFrame(c: Connection, e: Envelope) returns (r: Outcome<()>)
    requires !c.failed
    modifies c
    ensures |Marshal(e)| > MAX_FRAME ==> r == Failure(TooLarge) && c.sent == old(c.sent)
    ensures r.Success? <==> |Marshal(e)| <= MAX_FRAME && !c.failed
    ensures r.Success? ==> c.sent == old(c.sent) + Frame(e)
    ensures |Marshal(e)| <= MAX_FRAME ==> exists k: nat :: k <= |Frame(e)| && c.sent == old(c.sent) + Frame(e)[..k]
  {
    hide Marshal;
    var b := Marshal(e);
    if |b| > MAX_FRAME {
      return Failure(TooLarge);
    }
    var h := BigEndian(|b|);
    r := WriteAll(c, h);
    if r.Failure? {
      ghost var k: nat :| k <= |h| && c.sent == old(c.sent) + h[..k];
      assert Frame(e)[..k] == h[..k];
      return;
    }
    ghost var start := c.sent;
    r := WriteAll(c, b);
    ghost var k: nat :| k <= |b| && c.sent == start + b[..k];
    assert Frame(e)[..4 + k] == h + b[..k];
    assert old(c.sent) + h + b == old(c.sent) + Frame(e);
  }

  /** Reads a frame off the front of a stream that ends where `s` ends. */
  function FrameOf(s: Data): Outcome<Read<Envelope>> {
    if |s| < 4 then Failure(EOF)
    else
      var n := Number(s[..4]);
      if n > MAX_FRAME then Failure(TooLarge)
      else if |s| - 4 < n then Failure(EOF)
      else
        match Decoded(s[4..4 + n])
        case Err(e) => Failure(Malformed(e))
        case Ok(e) => Success(Read(e, s[4 + n..]))
  }

  /** A buffered stream of bytes received. */
  class Stream {
    var left: Data

    constructor (s: Data)
      ensures left == s
    {
      left := s;
    }

    /** Exactly `n` bytes, or an error once the stream has ended. */
    method ReadFull(n: nat) returns (r: Outcome<Data>)
      modifies this
      ensures if n <= |old(left)| then r == Success(old(left)[..n]) && left == old(left)[n..] else r == Failure(EOF) && left == []
    {
      if n <= |left| {
        r := Success(left[..n]);
        left := left[n..];
      } else {
        r := Failure(EOF);
        left := [];
      }
    }

    method ReadFrame() returns (r: Outcome<Envelope>)
      modifies this
      ensures match FrameOf(old(left))
              case Failure(e) => r == Failure(e)
              case Success(x) => r == Success(x.got) && left == x.rest
    {
      hide Decoded;
      ghost var s := left;
      var h := ReadFull(4);
      if h.Failure? {
        return Failure(h.error);
      }
      var n := Number(h.value);
      if n > MAX_FRAME {
        return Failure(TooLarge);
      }
      var b := ReadFull(n);
      if b.Failure? {
        return Failure(b.error);
      }
      assert s[4..][..n] == s[4..4 + n] && s[4..][n..] == s[4 + n..];
      var e := Unmarshal(b.value);
      if e.Err? {
        return Failure(Malformed(e.error));
      }
      return Success(e.value);
    }
  }

  /** A frame written is read back, and nothing after it is touched. */
  lemma FrameRoundTrip(e: Envelope, rest: Data)
    requires |Marshal(e)| <= MAX_FRAME
    ensures FrameOf(Frame(e) + rest) == Success(Read(e, rest))
  {
    hide Marshal, Decoded, BigEndian, Number;
    var m := Marshal(e);
    var s := Frame(e) + rest;
    HeaderReadsBack(|m|);
    RoundTrip(e);
    assert s[..4] == BigEndian(|m|) && s[4..4 + |m|] == m && s[4 + |m|..] == rest;
  }

  /** A frame cut short by a broken connection is never taken for one. */
  lemma CutFrameIsNotRead(e: Envelope, k: nat)
    requires |Marshal(e)| <= MAX_FRAME && k < |Frame(e)|
    ensures FrameOf(Frame(e)[..k]) == Failure(EOF)
  {
    hide Marshal, Decoded, BigEndian, Number;
    if k >= 4 {
      assert Frame(e)[..k][..4] == BigEndian(|Marshal(e)|);
      HeaderReadsBack(|Marshal(e)|);
    }
  }

  function Frames(es: seq<Envelope>): Data
    requires forall e <- es :: |Marshal(e)| <= MAX_FRAME
  {
    if es == [] then [] else Frame(es[0]) + Frames(es[1..])
  }

  /** The envelopes a reader takes off a stream before it ends or breaks. */
  function AllFrames(s: Data): seq<Envelope>
    decreases |s|
  {
    match FrameOf(s)
    case Failure(_) => []
    case Success(x) => if |x.rest| < |s| then [x.got] + AllFrames(x.rest) else []
  }

  /** However a connection breaks, its reader sees the envelopes written, in order, up to the last whole one. */
  lemma {:induction false} StreamRoundTrip(es: seq<Envelope>, last: Envelope, k: nat)
    requires (forall e <- es :: |Marshal(e)| <= MAX_FRAME) && |Marshal(last)| <= MAX_FRAME && k < |Frame(last)|
    ensures AllFrames(Frames(es) + Frame(last)[..k]) == es
  {
    hide Frame, FrameOf, Marshal;
    var cut := Frame(last)[..k];
    if es == [] {
      CutFrameIsNotRead(last, k);
      assert Frames(es) + cut == cut;
    } else {
      var rest := Frames(es[1..]) + cut;
      assert Frames(es) + cut == Frame(es[0]) + rest;
      FrameRoundTrip(es[0], rest);
      FrameNotEmpty(es[0]);
      StreamRoundTrip(es[1..], last, k);
    }
  }

  lemma FrameNotEmpty(e: Envelope)
    requires |Marshal(e)| <= MAX_FRAME
    ensures |Frame(e)| >= 4
  {
  }
}
