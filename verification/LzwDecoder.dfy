/**
 The reference: a decoder for the image data of GIF89a, after Appendix F of its specification
 (variable-length-code LZW compression).
 */
module LzwDecoder {
  import opened Bytes
  import opened Options
  import opened LzwBits

  const MAX_BITS := 12
  const MAX_CODES := 4096

  type Pixels = seq<Byte>

  /** Current code length, the string of every code known so far, and the string of the code before this one. */
  datatype Decoder = Decoder(size: nat, table: seq<Pixels>, prev: Option<Pixels>)

  function Clear(minCode: nat): nat { Pow2(minCode) }

  function EndOfInformation(minCode: nat): nat { Pow2(minCode) + 1 }

  /** A root stands for its own pixel; the clear and end codes stand for no string. */
  function Root(minCode: nat, c: nat): Pixels {
    if c < Clear(minCode) && c < 256 then [c] else []
  }

  function RootTable(minCode: nat): (table: seq<Pixels>)
    ensures |table| == EndOfInformation(minCode) + 1
  {
    seq(EndOfInformation(minCode) + 1, c requires 0 <= c => Root(minCode, c))
  }

  function Start(minCode: nat): Decoder
    requires minCode <= 8
  {
    Decoder(minCode + 1, RootTable(minCode), None)
  }

  datatype Decoded = Decoded(next: Decoder, output: Pixels)

  /** The code length grows when the table has filled the current one, up to 12 bits. */
  function Add(d: Decoder, entry: Pixels, prev: Pixels): Decoder {
    if |d.table| >= MAX_CODES then d.(prev := Some(prev))
    else
      Decoder(if |d.table| + 1 == Pow2(d.size) && d.size < MAX_BITS then d.size + 1 else d.size,
              d.table + [entry], Some(prev))
  }

  /** One code: a clear, a known code, or the code about to be added, which repeats the previous string's first pixel.
      Anything else does not decode. */
  function Step(minCode: nat, d: Decoder, code: nat): Option<Decoded>
    requires minCode <= 8
  {
    if code == Clear(minCode) then Some(Decoded(Start(minCode), []))
    else if code < |d.table| && d.table[code] != [] then
      var s := d.table[code];
      match d.prev
      case None => Some(Decoded(d.(prev := Some(s)), s))
      case Some(p) => Some(Decoded(Add(d, p + [s[0]], s), s))
    else if code == |d.table| < MAX_CODES && d.prev.Some? && d.prev.value != [] then
      var s := d.prev.value + [d.prev.value[0]];
      Some(Decoded(Add(d, s, s), s))
    else None
  }

  /** Reads codes until the end code, the end of the data, or a code that does not decode. */
  function Run(minCode: nat, d: Decoder, bits: Bits): Pixels
    requires minCode <= 8
    decreases |bits|
  {
    if d.size == 0 || |bits| < d.size then []
    else
      var code := ValueOf(bits[..d.size]);
      if code == EndOfInformation(minCode) then []
      else
        match Step(minCode, d, code)
        case None => []
        case Some(r) => r.output + Run(minCode, r.next, bits[d.size..])
  }

  function Decode(minCode: nat, data: Data): Pixels
    requires minCode <= 8
  {
    Run(minCode, Start(minCode), ByteBits(data))
  }

  /** Joins the sub-blocks of an image (section 15 of the GIF89a specification): a length, that many bytes, and so on
      until a length of zero. */
  function Unblock(body: Data): Data {
    if body == [] then []
    else
      var n: nat := body[0];
      if n == 0 || |body| < 1 + n then [] else body[1..1 + n] + Unblock(body[1 + n..])
  }
}
