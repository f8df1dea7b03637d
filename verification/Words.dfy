/** Machine words under exclusive or. */
module Words {
  type Word = bv64

  function Xor(a: Word, b: Word): Word { a ^ b }

  lemma SwapWords(a: Word, b: Word, c: Word, ab: Word, ac: Word, abc: Word, acb: Word)
    requires ab == a ^ b && ac == a ^ c && abc == ab ^ c && acb == ac ^ b
    ensures abc == acb
  {
  }

  lemma CancelWords(a: Word, b: Word, ab: Word, abb: Word, a0: Word)
    requires ab == a ^ b && abb == ab ^ b && a0 == a ^ 0
    ensures abb == a && a0 == a
  {
  }

  lemma XorIs(a: Word, b: Word)
    ensures Xor(a, b) == a ^ b
  {
  }

  lemma XorSwap(a: Word, b: Word, c: Word)
    ensures Xor(Xor(a, b), c) == Xor(Xor(a, c), b)
  {
    hide Xor;
    XorIs(a, b);
    XorIs(a, c);
    XorIs(Xor(a, b), c);
    XorIs(Xor(a, c), b);
    SwapWords(a, b, c, Xor(a, b), Xor(a, c), Xor(Xor(a, b), c), Xor(Xor(a, c), b));
  }

  lemma XorCancel(a: Word, b: Word)
    ensures Xor(Xor(a, b), b) == a && Xor(a, 0) == a
  {
    hide Xor;
    XorIs(a, b);
    XorIs(Xor(a, b), b);
    XorIs(a, 0);
    CancelWords(a, b, Xor(a, b), Xor(Xor(a, b), b), Xor(a, 0));
  }
}
