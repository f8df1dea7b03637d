/** The encoder of the GIF export, and its proof against the reference decoder. */
module Lzw {
  import opened Bytes
  import opened Options
  import opened LzwBits
  import opened LzwDecoder

  /** After the codes in `stream` the decoder has produced `output` and is in state `d`, whatever follows. */
  ghost predicate Reaches(minCode: nat, stream: Bits, d: Decoder, output: Pixels)
    requires minCode <= 8
  {
    forall rest :: Run(minCode, Start(minCode), stream + rest) == output + Run(minCode, d, rest)
  }

  lemma ReachesStart(minCode: nat)
    requires minCode <= 8
    ensures Reaches(minCode, [], Start(minCode), [])
  {
    hide Run;
    forall rest
      ensures Run(minCode, Start(minCode), [] + rest) == [] + Run(minCode, Start(minCode), rest)
    {
      assert [] + rest == rest;
    }
  }

  /** A decoder before the bits of a code takes that one step. */
  lemma RunsStep(minCode: nat, d: Decoder, code: nat, rest: Bits)
    requires minCode <= 8 && d.size > 0 && code < Pow2(d.size) && code != EndOfInformation(minCode)
    requires Step(minCode, d, code).Some?
    ensures var r := Step(minCode, d, code).value;
            Run(minCode, d, BitsOf(code, d.size) + rest) == r.output + Run(minCode, r.next, rest)
  {
    hide Step, BitsOf, ValueOf, Pow2;
    var bits := BitsOf(code, d.size);
    ReadBack(code, d.size);
    assert (bits + rest)[..d.size] == bits && (bits + rest)[d.size..] == rest;
  }

  lemma ReachesStep(minCode: nat, stream: Bits, d: Decoder, output: Pixels, code: nat)
    requires minCode <= 8 && Reaches(minCode, stream, d, output)
    requires d.size > 0 && code < Pow2(d.size) && code != EndOfInformation(minCode)
    requires Step(minCode, d, code).Some?
    ensures var r := Step(minCode, d, code).value;
            Reaches(minCode, stream + BitsOf(code, d.size), r.next, output + r.output)
  {
    hide Run, Step, BitsOf;
    var r := Step(minCode, d, code).value;
    var bits := BitsOf(code, d.size);
    forall rest
      ensures Run(minCode, Start(minCode), stream + bits + rest) == output + r.output + Run(minCode, r.next, rest)
    {
      RunsStep(minCode, d, code, rest);
      assert stream + bits + rest == stream + (bits + rest);
    }
  }

  /** The encoder's codes, as strings: what the decoder knows, plus the entry it will add when it reads the next code. */
  ghost predicate InStep(minCode: nat, d: Decoder, table: seq<Pixels>, first: Byte, size: nat)
    requires minCode <= 8
  {
    && d.size == size
    && minCode + 1 <= size <= MAX_BITS && |table| <= Pow2(size)
    && (d.prev.None? ==> table == d.table == RootTable(minCode) && size == minCode + 1)
    && (d.prev.Some? ==>
          d.prev.value != [] && |table| == |d.table| + 1 <= MAX_CODES
          && table == d.table + [d.prev.value + [first]])
  }

  ghost predicate IsTable(minCode: nat, table: seq<Pixels>)
    requires minCode <= 8
  {
    && RootTable(minCode) <= table
    && forall c :: EndOfInformation(minCode) < c < |table| ==> table[c] != []
  }

  /** `pre` is a code for the nonempty string `s`. */
  ghost predicate IsCode(minCode: nat, table: seq<Pixels>, pre: nat, s: Pixels) {
    pre < |table| && pre != Clear(minCode) && pre != EndOfInformation(minCode) && table[pre] == s && s != []
  }

  ghost predicate IsDictionary(minCode: nat, dict: map<nat, nat>, table: seq<Pixels>) {
    forall key <- dict :: key / 256 < |table| && EndOfInformation(minCode) < dict[key] < |table|
                          && table[dict[key]] == table[key / 256] + [key % 256]
  }

  function Key(pre: nat, k: Byte): nat { pre * 256 + k }

  /** The decoder reads the code of string `s` with the table it has, and then has caught up with the encoder. */
  lemma DecoderCatchesUp(minCode: nat, d: Decoder, table: seq<Pixels>, pre: nat, s: Pixels, size: nat)
    requires 2 <= minCode <= 8 && IsTable(minCode, table) && IsCode(minCode, table, pre, s)
    requires InStep(minCode, d, table, s[0], size)
    ensures pre < Pow2(size)
    ensures Step(minCode, d, pre).Some?
    ensures var r := Step(minCode, d, pre).value;
            && r.output == s && r.next.table == table && r.next.prev == Some(s)
            && r.next.size == if |table| == Pow2(size) && size < MAX_BITS then size + 1 else size
  {
    Pow2Grows(2, minCode);
    assert Pow2(2) == 4;
    if d.prev.Some? && pre == |d.table| {
      assert s[0] == d.prev.value[0];
    } else if d.prev.Some? {
      assert table[pre] == d.table[pre];
    }
  }

  /** The bytes written and the bits still waiting in `cur` are together the bits of `stream`. */
  ghost predicate Packed(out: Data, cur: nat, bits: nat, stream: Bits) {
    bits < 8 && cur < Pow2(bits) && ByteBits(out) + BitsOf(cur, bits) == stream
  }

  /** Packs one code after the bits still waiting. */
  method Emit(out: Data, cur: nat, bits: nat, code: nat, size: nat, ghost stream: Bits) returns (out': Data, cur': nat, bits': nat)
    requires Packed(out, cur, bits, stream) && code < Pow2(size)
    ensures Packed(out', cur', bits', stream + BitsOf(code, size))
  {
    hide Pow2, BitsOf, ByteBits;
    out', cur', bits' := out, cur + code * Pow2(bits), bits + size;
    JoinBits(cur, bits, code, size);
    JoinBelow(cur, bits, code, size);
    ghost var all := stream + BitsOf(code, size);
    assert all == ByteBits(out) + (BitsOf(cur, bits) + BitsOf(code, size));
    while bits' >= 8
      invariant cur' < Pow2(bits')
      invariant ByteBits(out') + BitsOf(cur', bits') == all
    {
      ShiftOut(out', cur', bits');
      out', cur', bits' := out' + [cur' % 256], cur' / 256, bits' - 8;
    }
  }

  /** The encoder between two pixels: `start` pixels are decoded, the code `pre` stands for those up to `i`. */
  ghost predicate Encoding(minCode: nat, idx: Pixels, start: nat, i: nat, stream: Bits, d: Decoder, table: seq<Pixels>, dict: map<nat, nat>,
                           pre: nat, size: nat)
    requires minCode <= 8
  {
    && start < i <= |idx|
    && Reaches(minCode, stream, d, idx[..start])
    && IsTable(minCode, table) && IsDictionary(minCode, dict, table)
    && IsCode(minCode, table, pre, idx[start..i])
    && InStep(minCode, d, table, idx[start], size)
  }

  ghost predicate ArePixels(minCode: nat, idx: Pixels) {
    forall i :: 0 <= i < |idx| ==> idx[i] < Pow2(minCode)
  }

  lemma Codes(minCode: nat)
    requires 2 <= minCode <= 8
    ensures Pow2(minCode + 1) == 2 * Pow2(minCode) && 4 <= Pow2(minCode) <= 256
  {
    Pow2Grows(2, minCode);
    Pow2Grows(minCode, 8);
    assert Pow2(2) == 4;
    Pow2Byte(0);
  }

  /** Right after a clear, with the pixel at `i` pending. */
  lemma EncodingRestarts(minCode: nat, idx: Pixels, i: nat, stream: Bits)
    requires 2 <= minCode <= 8 && ArePixels(minCode, idx) && i < |idx|
    requires Reaches(minCode, stream, Start(minCode), idx[..i])
    ensures Encoding(minCode, idx, i, i + 1, stream, Start(minCode), RootTable(minCode), map[], idx[i], minCode + 1)
  {
    Codes(minCode);
    assert idx[i..i + 1] == [idx[i]];
  }

  /** A clear is read like any code and sets the decoder back. */
  lemma ClearIsRead(minCode: nat, stream: Bits, d: Decoder, output: Pixels)
    requires 2 <= minCode <= 8 && Reaches(minCode, stream, d, output) && d.size > minCode
    ensures Clear(minCode) < Pow2(d.size)
    ensures Reaches(minCode, stream + BitsOf(Clear(minCode), d.size), Start(minCode), output)
  {
    Pow2Grows(minCode, d.size);
    ReachesStep(minCode, stream, d, output, Clear(minCode));
    assert output + [] == output;
  }

  /** The known string goes on with the next pixel. */
  lemma EncodingExtends(minCode: nat, idx: Pixels, start: nat, i: nat, stream: Bits, d: Decoder, table: seq<Pixels>, dict: map<nat, nat>,
                        pre: nat, size: nat)
    requires 2 <= minCode <= 8 && i < |idx|
    requires Encoding(minCode, idx, start, i, stream, d, table, dict, pre, size) && Key(pre, idx[i]) in dict
    ensures Encoding(minCode, idx, start, i + 1, stream, d, table, dict, dict[Key(pre, idx[i])], size)
  {
    assert Key(pre, idx[i]) / 256 == pre && Key(pre, idx[i]) % 256 == idx[i];
    assert idx[start..i + 1] == idx[start..i] + [idx[i]];
  }

  /** The pending string is emitted: the decoder has the pixels up to `i` and the encoder's whole table. */
  lemma PendingIsRead(minCode: nat, idx: Pixels, start: nat, i: nat, stream: Bits, d: Decoder, table: seq<Pixels>, dict: map<nat, nat>,
                      pre: nat, size: nat) returns (next: Decoder)
    requires 2 <= minCode <= 8 && Encoding(minCode, idx, start, i, stream, d, table, dict, pre, size)
    ensures pre < Pow2(size)
    ensures Reaches(minCode, stream + BitsOf(pre, size), next, idx[..i])
    ensures next.table == table && next.prev == Some(idx[start..i])
    ensures next.size == if |table| == Pow2(size) && size < MAX_BITS then size + 1 else size
    ensures minCode < size && (|table| == MAX_CODES ==> next.size == size) && start < i <= |idx|
  {
    FullAt12(size);
    var s := idx[start..i];
    DecoderCatchesUp(minCode, d, table, pre, s, size);
    ReachesStep(minCode, stream, d, idx[..start], pre);
    next := Step(minCode, d, pre).value.next;
    assert idx[..i] == idx[..start] + s;
  }

  /** The encoder adds a code for the pending string and the new pixel, which the decoder will add one code later. */
  lemma EncodingGrows(minCode: nat, idx: Pixels, start: nat, i: nat, before: Bits, d: Decoder, table: seq<Pixels>, dict: map<nat, nat>,
                      pre: nat, size: nat, stream: Bits, next: Decoder)
    requires 2 <= minCode <= 8 && ArePixels(minCode, idx) && i < |idx| && |table| < MAX_CODES
    requires Encoding(minCode, idx, start, i, before, d, table, dict, pre, size)
    requires Reaches(minCode, stream, next, idx[..i])
    requires next.table == table && next.prev == Some(idx[start..i])
    requires next.size == if |table| == Pow2(size) && size < MAX_BITS then size + 1 else size
    ensures var size' := if |table| >= Pow2(size) then size + 1 else size;
            Encoding(minCode, idx, i, i + 1, stream, next, table + [idx[start..i] + [idx[i]]], dict[Key(pre, idx[i]) := |table|], idx[i], size')
  {
    hide IsDictionary, Reaches, Pow2;
    Codes(minCode);
    assert Pow2(size + 1) == 2 * Pow2(size) by { Doubles(size); }
    FullAt12(size);
    DictionaryGrows(minCode, dict, table, pre, idx[i]);
    assert idx[i..i + 1] == [idx[i]];
    var table' := table + [idx[start..i] + [idx[i]]];
    assert table'[idx[i]] == table[idx[i]] == RootTable(minCode)[idx[i]];
  }

  lemma Doubles(n: nat)
    ensures Pow2(n + 1) == 2 * Pow2(n)
  {
  }

  /** A new entry under the key of its string and its last pixel. */
  lemma DictionaryGrows(minCode: nat, dict: map<nat, nat>, table: seq<Pixels>, pre: nat, pixel: Byte)
    requires IsDictionary(minCode, dict, table) && pre < |table| && EndOfInformation(minCode) < |table|
    ensures IsDictionary(minCode, dict[Key(pre, pixel) := |table|], table + [table[pre] + [pixel]])
  {
    hide Key;
    KeySplits(pre, pixel);
  }

  lemma KeySplits(pre: nat, pixel: Byte)
    ensures Key(pre, pixel) / 256 == pre && Key(pre, pixel) % 256 == pixel
  {
  }

  lemma FullAt12(size: nat)
    ensures size < MAX_BITS ==> Pow2(size) < MAX_CODES
    ensures size >= MAX_BITS ==> Pow2(size) >= MAX_CODES
  {
    assert Pow2(4) == 16;
    Pow2Byte(4);
    if size < 12 { Pow2Grows(size, 12); } else { Pow2Grows(12, size); }
  }

  /** After the last pixel the end code, one bit short when the decoder has just widened, ends the output all the same. */
  lemma EndIsRead(minCode: nat, d: Decoder, size: nat, padding: nat)
    requires 2 <= minCode <= 8 && minCode < size && (d.size == size || d.size == size + 1)
    ensures EndOfInformation(minCode) < Pow2(size)
    ensures Run(minCode, d, BitsOf(EndOfInformation(minCode), size) + BitsOf(0, padding)) == []
  {
    var eoi := EndOfInformation(minCode);
    hide Run, BitsOf, ValueOf, Pow2;
    Codes(minCode);
    Pow2Grows(minCode + 1, size);
    var bits := BitsOf(eoi, size) + BitsOf(0, padding);
    if d.size == size {
      assert bits[..size] == BitsOf(eoi, size);
      ReadBack(eoi, size);
    } else if |bits| >= size + 1 {
      WiderEnd(eoi, size);
      ZeroBits(padding);
      assert bits[..size + 1] == BitsOf(eoi, size) + [false];
    }
    StopsAtEnd(minCode, d, bits);
  }

  lemma StopsAtEnd(minCode: nat, d: Decoder, bits: Bits)
    requires minCode <= 8 && d.size > 0
    requires |bits| < d.size || ValueOf(bits[..d.size]) == EndOfInformation(minCode)
    ensures Run(minCode, d, bits) == []
  {
  }

  /** Read with one more bit, which is zero, a code is still the same number. */
  lemma WiderEnd(code: nat, size: nat)
    requires code < Pow2(size)
    ensures ValueOf(BitsOf(code, size) + [false]) == code
  {
    PadWithZeros(code, size, 1);
    assert BitsOf(0, 1) == [false];
    Pow2Grows(size, size + 1);
    ReadBack(code, size + 1);
  }

  /** What an encoder's output decodes to: the pixels; and for no pixels at all, where the program emits the code of a
      missing first pixel, one pixel 0. */
  function Expected(idx: Pixels): Pixels {
    if idx == [] then [0] else idx
  }

  /** The encoder. Whatever the pixels, the reference decoder reads them back. */
  method Encode(idx: Pixels, minCode: nat) returns (out: Data)
    requires 2 <= minCode <= 8 && ArePixels(minCode, idx)
    ensures Decode(minCode, out) == Expected(idx)
  {
    hide Pow2, BitsOf, ByteBits, Run, Encoding, RootTable, Reaches, Step, Packed, IsTable, IsDictionary, InStep, IsCode, ArePixels;
    var all := Expected(idx);
    out := [];
    var cur: nat, bits: nat := 0, 0;
    var clear := Clear(minCode);
    var eoi := clear + 1;
    var size: nat, next: nat := minCode + 1, eoi + 1;
    var dict: map<nat, nat> := map[];
    Opening(minCode, idx);
    ghost var stream := [] + BitsOf(clear, size);
    out, cur, bits := Emit(out, cur, bits, clear, size, []);
    var pre: nat := all[0];
    ghost var start: nat, d, table := 0, Start(minCode), RootTable(minCode);
    EncodingRestarts(minCode, all, 0, stream);
    var i := 1;
    while i < |all|
      invariant 1 <= i <= |all|
      invariant Packed(out, cur, bits, stream)
      invariant Encoding(minCode, all, start, i, stream, d, table, dict, pre, size)
      invariant next == |table| <= MAX_CODES
    {
      var k := all[i];
      var key := Key(pre, k);
      if key in dict {
        EncodingExtends(minCode, all, start, i, stream, d, table, dict, pre, size);
        pre := dict[key];
      } else {
        var d' := PendingIsRead(minCode, all, start, i, stream, d, table, dict, pre, size);
        ghost var before := stream;
        out, cur, bits := Emit(out, cur, bits, pre, size, stream);
        stream := stream + BitsOf(pre, size);
        if next == MAX_CODES {
          ClearIsRead(minCode, stream, d', all[..i]);
          out, cur, bits := Emit(out, cur, bits, clear, size, stream);
          stream := stream + BitsOf(clear, size);
          dict, next, size := map[], eoi + 1, minCode + 1;
          start, d, table := i, Start(minCode), RootTable(minCode);
          EncodingRestarts(minCode, all, i, stream);
        } else {
          EncodingGrows(minCode, all, start, i, before, d, table, dict, pre, size, stream, d');
          table := table + [all[start..i] + [k]];
          if next >= Pow2(size) { size := size + 1; }
          dict := dict[key := next];
          next := next + 1;
          start, d := i, d';
        }
        pre := k;
      }
      i := i + 1;
    }
    var last := PendingIsRead(minCode, all, start, i, stream, d, table, dict, pre, size);
    out, cur, bits := Emit(out, cur, bits, pre, size, stream);
    stream := stream + BitsOf(pre, size);
    assert all[..i] == all;
    EndIsRead(minCode, last, size, 0);
    out, cur, bits := Emit(out, cur, bits, eoi, size, stream);
    if bits > 0 {
      FlushPads(out, cur, bits, stream + BitsOf(eoi, size));
      EndIsRead(minCode, last, size, 8 - bits);
      Finish(minCode, stream, last, all, BitsOf(eoi, size), BitsOf(0, 8 - bits));
      out := out + [cur % 256];
    } else {
      NothingWaits(out, cur, stream + BitsOf(eoi, size));
      Finish(minCode, stream, last, all, BitsOf(eoi, size), BitsOf(0, 0));
    }
  }

  /** The stream opens with a clear. */
  lemma Opening(minCode: nat, idx: Pixels)
    requires 2 <= minCode <= 8 && ArePixels(minCode, idx)
    ensures Clear(minCode) < Pow2(minCode + 1) && Packed([], 0, 0, [])
    ensures Reaches(minCode, [] + BitsOf(Clear(minCode), minCode + 1), Start(minCode), Expected(idx)[..0])
    ensures ArePixels(minCode, Expected(idx)) && Pow2(minCode) <= 256
  {
    hide Run, Reaches, Step, BitsOf, ByteBits, RootTable, Packed;
    Codes(minCode);
    NothingPacked();
    ReachesStart(minCode);
    ClearIsRead(minCode, [], Start(minCode), []);
    assert Expected(idx)[..0] == [];
  }

  lemma NothingPacked()
    ensures Packed([], 0, 0, [])
  {
  }

  lemma NothingWaits(out: Data, cur: nat, stream: Bits)
    requires Packed(out, cur, 0, stream)
    ensures ByteBits(out) == stream + BitsOf(0, 0)
  {
    assert BitsOf(cur, 0) == [] == BitsOf(0, 0);
  }

  /** Once the decoder has everything, what follows adds nothing. */
  lemma Finish(minCode: nat, stream: Bits, last: Decoder, all: Pixels, end: Bits, padding: Bits)
    requires minCode <= 8 && Reaches(minCode, stream, last, all) && Run(minCode, last, end + padding) == []
    ensures Run(minCode, Start(minCode), stream + end + padding) == all
  {
    assert stream + end + padding == stream + (end + padding);
    assert all + [] == all;
  }

  /** The last byte is filled up with zero bits. */
  lemma FlushPads(out: Data, cur: nat, bits: nat, stream: Bits)
    requires 0 < bits && Packed(out, cur, bits, stream)
    ensures bits < 8 && ByteBits(out + [cur % 256]) == stream + BitsOf(0, 8 - bits)
  {
    hide Pow2, BitsOf, ByteBits;
    PadBits(cur, bits);
    ByteBitsSnoc(out, cur % 256);
    assert ByteBits(out) + (BitsOf(cur, bits) + BitsOf(0, 8 - bits)) == stream + BitsOf(0, 8 - bits);
  }

  lemma PadBits(cur: nat, bits: nat)
    requires bits < 8 && cur < Pow2(bits)
    ensures cur % 256 == cur && BitsOf(cur, 8) == BitsOf(cur, bits) + BitsOf(0, 8 - bits)
  {
    Pow2Grows(bits, 8);
    Pow2Byte(0);
    PadWithZeros(cur, bits, 8 - bits);
  }

  /** These sub-blocks are read as `data`, and reading goes on after them. */
  ghost predicate Unblocks(body: Data, data: Data) {
    forall rest :: Unblock(body + rest) == data + Unblock(rest)
  }

  lemma NoBlocks()
    ensures Unblocks([], [])
  {
    hide Unblock;
    forall rest ensures Unblock([] + rest) == [] + Unblock(rest) { assert [] + rest == rest; }
  }

  lemma OneMoreBlock(body: Data, data: Data, n: Byte, block: Data)
    requires Unblocks(body, data) && n == |block| > 0
    ensures Unblocks(body + [n] + block, data + block)
  {
    hide Unblock;
    forall rest
      ensures Unblock(body + [n] + block + rest) == data + block + Unblock(rest)
    {
      assert body + [n] + block + rest == body + ([n] + block + rest);
      BlockIsRead(n, block, rest);
    }
  }

  lemma BlockIsRead(n: Byte, block: Data, rest: Data)
    requires n == |block| > 0
    ensures Unblock([n] + block + rest) == block + Unblock(rest)
  {
    var all := [n] + block + rest;
    assert all[1..1 + |block|] == block && all[1 + |block|..] == rest;
  }

  lemma Terminated(body: Data, data: Data, rest: Data)
    requires Unblocks(body, data)
    ensures Unblock(body + [0] + rest) == data
  {
    assert body + [0] + rest == body + ([0] + rest);
    assert Unblock([0] + rest) == [];
  }

  /** Cuts the data into sub-blocks of at most 255 bytes, each after its length, and ends with an empty one. */
  method SubBlocks(data: Data) returns (body: Data)
    ensures forall rest :: Unblock(body + rest) == data
  {
    hide Unblock, Unblocks;
    body := [];
    NoBlocks();
    var p: nat := 0;
    assert data[..p] == [];
    while p < |data|
      invariant p <= |data| && Unblocks(body, data[..p])
    {
      var n: Byte := if |data| - p < 255 then |data| - p else 255;
      ghost var before := body;
      body := body + [n];
      for q := 0 to n
        invariant body == before + [n] + data[p..p + q]
      {
        assert data[p..p + q + 1] == data[p..p + q] + [data[p + q]];
        body := body + [data[p + q]];
      }
      OneMoreBlock(before, data[..p], n, data[p..p + n]);
      assert data[..p] + data[p..p + n] == data[..p + n];
      p := p + n;
    }
    assert data[..p] == data;
    forall rest ensures Unblock(body + [0] + rest) == data { Terminated(body, data, rest); }
    body := body + [0];
  }

  /** The image data of one frame: what a decoder gets out of its sub-blocks are the frame's pixels. */
  method EncodeFrame(pixels: Pixels) returns (body: Data)
    ensures forall rest :: Decode(8, Unblock(body + rest)) == Expected(pixels)
  {
    Pow2Byte(0);
    var data := Encode(pixels, 8);
    body := SubBlocks(data);
  }
}
