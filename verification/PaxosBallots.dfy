/** Ballots: a counter and the identifier of the node that issued it, compared lexicographically. */
module PaxosBallots {

  datatype Ballot = Ballot(counter: nat, node: string)

  const ZERO := Ballot(0, "")

  /** Byte-wise order on node identifiers. */
  predicate StringLess(a: string, b: string) {
    if b == "" then false
    else if a == "" then true
    else a[0] < b[0] || (a[0] == b[0] && StringLess(a[1..], b[1..]))
  }

  predicate Less(a: Ballot, b: Ballot) {
    a.counter < b.counter || (a.counter == b.counter && StringLess(a.node, b.node))
  }

  lemma {:induction false} StringLessIsTotal(a: string, b: string)
    ensures a == b ==> !StringLess(a, b)
    ensures a != b ==> (StringLess(a, b) <==> !StringLess(b, a))
  {
    if a != "" && b != "" {
      StringLessIsTotal(a[1..], b[1..]);
      assert a == [a[0]] + a[1..] && b == [b[0]] + b[1..];
    }
  }

  lemma {:induction false} StringLessIsTransitive(a: string, b: string, c: string)
    requires StringLess(a, b) && StringLess(b, c)
    ensures StringLess(a, c)
  {
    if a != "" && a[0] == b[0] && b[0] == c[0] {
      StringLessIsTransitive(a[1..], b[1..], c[1..]);
    }
  }

  /** Two ballots: at most one is the lesser, and neither only if they are the same. */
  lemma Compare(a: Ballot, b: Ballot)
    ensures Less(a, b) ==> !Less(b, a) && a != b
    ensures !Less(a, b) && !Less(b, a) ==> a == b
  {
    StringLessIsTotal(a.node, b.node);
  }

  lemma AtLeastTransitive(a: Ballot, b: Ballot, c: Ballot)
    requires !Less(a, b) && !Less(b, c)
    ensures !Less(a, c)
  {
    Compare(a, b);
    Compare(b, c);
    if Less(a, c) && a != b && b != c && c.counter == b.counter == a.counter {
      StringLessIsTransitive(c.node, b.node, a.node);
      Compare(a, c);
    }
  }

  /** `Less` is a strict total order with ZERO at the bottom. */
  lemma StrictTotalOrder()
    ensures forall a, b :: Less(a, b) ==> !Less(b, a) && a != b
    ensures forall a, b :: !Less(a, b) && !Less(b, a) ==> a == b
    ensures forall a, b, c :: Less(a, b) && Less(b, c) ==> Less(a, c)
    ensures forall a :: !Less(a, ZERO)
  {
    forall a: Ballot, b: Ballot
      ensures Less(a, b) ==> !Less(b, a) && a != b
      ensures !Less(a, b) && !Less(b, a) ==> a == b
    {
      StringLessIsTotal(a.node, b.node);
    }
    forall a, b, c | Less(a, b) && Less(b, c)
      ensures Less(a, c)
    {
      if a.counter == b.counter == c.counter {
        StringLessIsTransitive(a.node, b.node, c.node);
      }
    }
  }
}
