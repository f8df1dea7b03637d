/** Products, quotients and remainders. */
module Arithmetic {
  lemma MulGrows(a: int, b: int, c: nat)
    requires a <= b
    ensures a * c <= b * c
  {
    assert (b - a) * c >= 0;
    assert (b - a) * c == b * c - a * c;
  }

  lemma OneLess(a: int, w: nat)
    ensures (a - 1) * w == a * w - w
  {
  }

  /** The quotient `y` is where `i` lies between `y * w` and the next multiple. */
  lemma Divided(w: nat, i: int, y: int)
    requires w > 0
    ensures i / w == y <==> y * w <= i < y * w + w
    ensures i / w == y ==> i % w == i - y * w
  {
    var q, r := i / w, i % w;
    assert i == q * w + r;
    OneLess(y + 1, w);
    OneLess(q + 1, w);
    if y < q { MulGrows(y + 1, q, w); } else if q < y { MulGrows(q + 1, y, w); }
  }

  lemma Remainder(k: nat, i: nat, q: nat, r: nat)
    requires r < k && i == q * k + r
    ensures i % k == r
  {
    Divided(k, i, q);
  }
}
