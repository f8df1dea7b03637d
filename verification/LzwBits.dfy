/** Bit strings, least significant bit first, and how they pack into bytes. */
module LzwBits {
  import opened Arithmetic
  import opened Bytes

  type Bits = seq<bool>

  function Pow2(n: nat): (p: nat)
    ensures p >= 1
  {
    if n == 0 then 1 else 2 * Pow2(n - 1)
  }

  /** The low `n` bits of `v`. */
  function BitsOf(v: nat, n: nat): (bits: Bits)
    ensures |bits| == n
  {
    if n == 0 then [] else [v % 2 == 1] + BitsOf(v / 2, n - 1)
  }

  function ValueOf(bits: Bits): nat {
    if bits == [] then 0 else (if bits[0] then 1 else 0) + 2 * ValueOf(bits[1..])
  }

  function ByteBits(data: Data): Bits {
    if data == [] then [] else ByteBits(data[..|data| - 1]) + BitsOf(data[|data| - 1], 8)
  }

  lemma ByteBitsSnoc(data: Data, b: Byte)
    ensures ByteBits(data + [b]) == ByteBits(data) + BitsOf(b, 8)
  {
    assert (data + [b])[..|data|] == data;
  }

  lemma {:induction false} ReadBack(v: nat, n: nat)
    requires v < Pow2(n)
    ensures ValueOf(BitsOf(v, n)) == v
  {
    if n > 0 {
      ReadBack(v / 2, n - 1);
      assert BitsOf(v, n)[1..] == BitsOf(v / 2, n - 1);
    }
  }

  lemma AddedTwice(low: nat, h: nat)
    ensures (low + 2 * h) / 2 == low / 2 + h && (low + 2 * h) % 2 == low % 2
  {
  }

  /** A number below 2^a with another one shifted over it: first the bits of the one, then of the other. */
  lemma {:induction false} JoinBits(low: nat, a: nat, high: nat, b: nat)
    requires low < Pow2(a)
    ensures BitsOf(low + high * Pow2(a), a + b) == BitsOf(low, a) + BitsOf(high, b)
  {
    if a > 0 {
      var h := high * Pow2(a - 1);
      assert low + high * Pow2(a) == low + 2 * h;
      AddedTwice(low, h);
      JoinBits(low / 2, a - 1, high, b);
    }
  }

  /** The bits above a number are zero. */
  lemma {:induction false} PadWithZeros(low: nat, a: nat, b: nat)
    requires low < Pow2(a)
    ensures BitsOf(low, a + b) == BitsOf(low, a) + BitsOf(0, b)
  {
    if a > 0 { PadWithZeros(low / 2, a - 1, b); }
  }

  lemma {:induction false} Pow2Grows(a: nat, b: nat)
    requires a <= b
    ensures Pow2(a) <= Pow2(b)
    ensures a < b ==> Pow2(a) < Pow2(b)
  {
    if a < b { Pow2Grows(a, b - 1); }
  }

  lemma {:induction false} Pow2Adds(a: nat, b: nat)
    ensures Pow2(a + b) == Pow2(a) * Pow2(b)
  {
    if a > 0 {
      Pow2Adds(a - 1, b);
      assert 2 * (Pow2(a - 1) * Pow2(b)) == (2 * Pow2(a - 1)) * Pow2(b);
    }
  }

  lemma Pow2Byte(n: nat)
    ensures Pow2(8) == 256 && Pow2(n + 8) == 256 * Pow2(n)
  {
    assert Pow2(n + 2) == 4 * Pow2(n);
    assert Pow2(n + 4) == 4 * Pow2(n + 2);
    assert Pow2(n + 6) == 4 * Pow2(n + 4);
    assert Pow2(2) == 4 && Pow2(4) == 4 * Pow2(2) && Pow2(6) == 4 * Pow2(4);
  }

  /** Two numbers joined as in JoinBits stay within their bits. */
  lemma JoinBelow(low: nat, a: nat, high: nat, b: nat)
    requires low < Pow2(a) && high < Pow2(b)
    ensures low + high * Pow2(a) < Pow2(a + b)
  {
    Pow2Adds(b, a);
    MulGrows(high + 1, Pow2(b), Pow2(a));
  }

  /** Moving the low byte out of the waiting bits. */
  lemma ShiftOut(out: Data, cur: nat, bits: nat)
    requires bits >= 8 && cur < Pow2(bits)
    ensures cur / 256 < Pow2(bits - 8)
    ensures ByteBits(out + [cur % 256]) + BitsOf(cur / 256, bits - 8) == ByteBits(out) + BitsOf(cur, bits)
  {
    hide Pow2, BitsOf, ByteBits;
    Pow2Byte(bits - 8);
    JoinBits(cur % 256, 8, cur / 256, bits - 8);
    ByteBitsSnoc(out, cur % 256);
    assert cur == cur % 256 + cur / 256 * 256;
  }

  lemma {:induction false} ZeroBits(n: nat)
    ensures forall i :: 0 <= i < n ==> BitsOf(0, n)[i] == false
  {
    if n > 0 { ZeroBits(n - 1); }
  }
}
