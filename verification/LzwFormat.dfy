/** The format itself, as any reader of GIF89a image data takes it: the order of bits, the first codes, and code lengths. */
module LzwFormat {
  import opened Arithmetic
  import opened Bytes
  import opened Options
  import opened LzwBits
  import opened LzwDecoder

  lemma HalvedTwice(v: nat, k: nat)
    requires k > 0
    ensures v / 2 / Pow2(k - 1) == v / Pow2(k)
  {
    var p, w := Pow2(k - 1), v / 2;
    var q := w / p;
    Divided(p, w, q);
    assert 2 * (q * p) <= v < 2 * (q * p) + 2 * p;
    assert q * (2 * p) == 2 * (q * p);
    Divided(2 * p, v, q);
  }

  lemma {:induction false} BitAt(v: nat, n: nat, k: nat)
    requires k < n
    ensures BitsOf(v, n)[k] <==> v / Pow2(k) % 2 == 1
  {
    if k > 0 {
      BitAt(v / 2, n - 1, k - 1);
      HalvedTwice(v, k);
    }
  }

  /** Bit `j` of the data's byte `i`, counted from the least significant, is bit `8 * i + j` of the stream. */
  lemma {:induction false} StreamBit(data: Data, i: nat, j: nat)
    requires i < |data| && j < 8
    ensures |ByteBits(data)| == 8 * |data|
    ensures ByteBits(data)[8 * i + j] <==> data[i] / Pow2(j) % 2 == 1
  {
    var n := |data| - 1;
    if i < n {
      StreamBit(data[..n], i, j);
    } else {
      if n > 0 { StreamBit(data[..n], 0, 0); }
      BitAt(data[n], 8, j);
    }
  }

  /** The earliest bit of a code is its least significant. */
  lemma {:induction false} CodeBit(bits: Bits, k: nat)
    requires k < |bits|
    ensures bits[k] <==> ValueOf(bits) / Pow2(k) % 2 == 1
  {
    var more := ValueOf(bits[1..]);
    AddedTwice(if bits[0] then 1 else 0, more);
    if k > 0 {
      CodeBit(bits[1..], k - 1);
      HalvedTwice(ValueOf(bits), k);
    }
  }

  /** For images of eight bits a pixel: 256 clears, 257 ends, codes are nine bits at first, and the first string has 258. */
  lemma FirstCodes()
    ensures Clear(8) == 0x100 && EndOfInformation(8) == 0x101 && Start(8).size == 9 && |Start(8).table| == 0x102
    ensures forall c: nat :: c < 0x100 ==> Start(8).table[c] == [c]
    ensures Start(8).table[0x100] == Start(8).table[0x101] == []
  {
    Pow2Byte(0);
  }

  /** The decoder after these codes, unless one of them does not decode. */
  function After(minCode: nat, codes: seq<nat>): Option<Decoder>
    requires minCode <= 8
  {
    if codes == [] then Some(Start(minCode))
    else
      match After(minCode, codes[..|codes| - 1])
      case None => None
      case Some(d) =>
        match Step(minCode, d, codes[|codes| - 1])
        case None => None
        case Some(r) => Some(r.next)
  }

  /** The code length is the shortest, from one more than the pixels' up to 12, in which the next code to be defined can be
      written. */
  predicate Fits(minCode: nat, d: Decoder) {
    && minCode + 1 <= d.size <= 12 && |d.table| <= 4096
    && (d.size < 12 ==> |d.table| < Pow2(d.size))
    && (d.size > minCode + 1 ==> Pow2(d.size - 1) <= |d.table|)
  }

  lemma StartFits(minCode: nat)
    requires 2 <= minCode <= 8
    ensures Fits(minCode, Start(minCode))
  {
    Pow2Grows(2, minCode);
    Pow2Grows(minCode, 8);
    Pow2Byte(0);
    assert Pow2(2) == 2 * Pow2(1) && Pow2(minCode + 1) == 2 * Pow2(minCode);
  }

  lemma AddFits(minCode: nat, d: Decoder, entry: Pixels, prev: Pixels)
    requires 2 <= minCode <= 8 && Fits(minCode, d)
    ensures Fits(minCode, Add(d, entry, prev))
  {
    hide Pow2;
    if d.size < 12 { PowNext(d.size); }
  }

  lemma PowNext(n: nat)
    ensures Pow2(n) < Pow2(n + 1)
  {
  }

  /** After any codes whatsoever. */
  lemma {:induction false} CodeLengthFits(minCode: nat, codes: seq<nat>)
    requires 2 <= minCode <= 8 && After(minCode, codes).Some?
    ensures Fits(minCode, After(minCode, codes).value)
  {
    hide Fits, Start, Add, Clear;
    if codes == [] {
      StartFits(minCode);
    } else {
      CodeLengthFits(minCode, codes[..|codes| - 1]);
      StepFits(minCode, After(minCode, codes[..|codes| - 1]).value, codes[|codes| - 1]);
    }
  }

  lemma StepFits(minCode: nat, d: Decoder, code: nat)
    requires 2 <= minCode <= 8 && Fits(minCode, d) && Step(minCode, d, code).Some?
    ensures Fits(minCode, Step(minCode, d, code).value.next)
  {
    hide Start, Add, Pow2;
    StartFits(minCode);
    forall entry, prev ensures Fits(minCode, Add(d, entry, prev)) { AddFits(minCode, d, entry, prev); }
  }
}
