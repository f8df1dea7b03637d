/** The bytes on the wire, field by field: what another replica, or any other program that reads this format, relies on. */
module CodecTable {
  import opened Arithmetic
  import opened Bytes
  import opened CodecWire
  import opened CodecMessages
  import opened CodecFrames

  /** Byte `k` of a varint holds the `k`th seven bits from the low end, and its top bit says that more bytes follow; no
      byte is spent on leading zeros. */
  lemma {:induction false} VarintDigits(v: nat, k: nat)
    requires k < |Varint(v)|
    ensures Varint(v)[k] == v / Shift7(k) % 128 + if k + 1 < |Varint(v)| then 128 else 0
    ensures Shift7(|Varint(v)| - 1) <= v || |Varint(v)| == 1
    ensures v < Shift7(|Varint(v)|)
  {
    if v >= 128 {
      var w := v / 128;
      VarintDigits(w, if k == 0 then 0 else k - 1);
      assert Varint(v) == [v % 128 + 128] + Varint(w);
      if k > 0 {
        DividedTwice(v, Shift7(k - 1));
      }
    }
  }

  lemma DividedTwice(v: nat, p: nat)
    requires p > 0
    ensures v / 128 / p == v / (128 * p)
  {
    var w := v / 128;
    var q := w / p;
    Divided(p, w, q);
    assert q * p <= w < q * p + p;
    assert 128 * (q * p) <= v < 128 * (q * p) + 128 * p;
    assert q * (128 * p) == 128 * (q * p);
    Divided(128 * p, v, q);
  }

  // ----- a field is one byte that names it, and its value -----

  function Text(tag: Byte, s: Data): Data {
    if s == [] then [] else Message(tag, s)
  }

  function Count(tag: Byte, v: U64): Data {
    if v == 0 then [] else [tag] + Varint(v)
  }

  function Flag(tag: Byte, v: bool): Data {
    if v then [tag, 1] else []
  }

  function Message(tag: Byte, p: Data): Data {
    [tag] + Varint(|p|) + p
  }

  /** Each with its tag, in order. */
  function Each(tag: Byte, ps: seq<Data>): Data {
    if ps == [] then [] else Message(tag, ps[0]) + Each(tag, ps[1..])
  }

  lemma FieldBytes(n: nat, s: Data, v: U64, f: bool)
    requires 0 < n < 16
    ensures StringField(n, s) == Text(8 * n + 2, s) && MessageField(n, s) == Message(8 * n + 2, s)
    ensures UintField(n, v) == Count(8 * n, v) && BoolField(n, f) == Flag(8 * n, f)
  {
  }

  // ----- the messages, field after field -----

  lemma Started(parts: seq<Data>) returns (sum: Data)
    requires parts != []
    ensures sum == parts[0] && Concat(parts) == sum + Concat(parts[1..])
  {
    sum := parts[0];
  }

  /** One more part of a message. */
  lemma OneMore(sum: Data, parts: seq<Data>, i: nat) returns (longer: Data)
    requires i < |parts| && Concat(parts) == sum + Concat(parts[i..])
    ensures longer == sum + parts[i] && Concat(parts) == longer + Concat(parts[i + 1..])
  {
    hide Concat;
    ConcatFrom(parts, i);
    longer := sum + parts[i];
    assert sum + (parts[i] + Concat(parts[i + 1..])) == longer + Concat(parts[i + 1..]);
  }

  lemma Finished(sum: Data, parts: seq<Data>, n: nat)
    requires n == |parts| && Concat(parts) == sum + Concat(parts[n..])
    ensures Concat(parts) == sum
  {
    assert parts[n..] == [];
  }

  lemma EntryBytes(x: Entry)
    ensures MarshalEntry(x) == Text(0x0A, x.key) + Text(0x12, x.value)
  {
    hide StringField, Text, Concat;
    FieldBytes(1, x.key, 0, false);
    FieldBytes(2, x.value, 0, false);
    var parts := EntryFields(x);
    var sum := Started(parts);
    sum := OneMore(sum, parts, 1);
    Finished(sum, parts, 2);
  }

  lemma SlotBytes(s: SlotState)
    ensures MarshalSlot(s) ==
            Count(0x08, s.slot) + Count(0x10, s.promisedCounter) + Text(0x1A, s.promisedNode)
            + Count(0x20, s.acceptedCounter) + Text(0x2A, s.acceptedNode) + Text(0x32, s.key)
            + Text(0x3A, s.value) + Flag(0x40, s.committed) + Text(0x4A, s.requestID)
  {
    hide StringField, UintField, BoolField, Text, Count, Flag, Concat;
    FieldBytes(1, [], s.slot, false);
    FieldBytes(2, [], s.promisedCounter, false);
    FieldBytes(3, s.promisedNode, 0, false);
    FieldBytes(4, [], s.acceptedCounter, false);
    FieldBytes(5, s.acceptedNode, 0, false);
    FieldBytes(6, s.key, 0, false);
    FieldBytes(7, s.value, 0, false);
    FieldBytes(8, [], 0, s.committed);
    FieldBytes(9, s.requestID, 0, false);
    var parts := SlotFields(s);
    var sum := Started(parts);
    sum := OneMore(sum, parts, 1);
    sum := OneMore(sum, parts, 2);
    sum := OneMore(sum, parts, 3);
    sum := OneMore(sum, parts, 4);
    sum := OneMore(sum, parts, 5);
    sum := OneMore(sum, parts, 6);
    sum := OneMore(sum, parts, 7);
    sum := OneMore(sum, parts, 8);
    Finished(sum, parts, 9);
  }

  /** The envelope's field table: a tag is eight times the field's number, plus two for what carries its length. */
  lemma EnvelopeBytes(e: Envelope, entries: seq<Data>, slots: seq<Data>)
    requires |entries| == |e.entries| && forall i :: 0 <= i < |entries| ==> entries[i] == MarshalEntry(e.entries[i])
    requires |slots| == |e.slots| && forall i :: 0 <= i < |slots| ==> slots[i] == MarshalSlot(e.slots[i])
    ensures Marshal(e) ==
            Text(0x0A, e.kind) + Text(0x12, e.requestID) + Count(0x18, e.ballotCounter) + Text(0x22, e.ballotNode)
            + Count(0x28, e.slot) + Text(0x32, e.key) + Text(0x3A, e.value) + Flag(0x40, e.success)
            + Text(0x4A, e.error) + Each(0x52, entries)
            + Count(0x58, e.acceptedCounter) + Text(0x62, e.acceptedNode) + Flag(0x68, e.committed) + Text(0x72, e.session)
            + Each(0x7A, slots)
  {
    hide StringField, UintField, BoolField, Text, Count, Flag, Each, Entries, Slots, MarshalEntry, MarshalSlot, Concat;
    EnvelopeParts(e);
    EntriesEach(e.entries, entries);
    SlotsEach(e.slots, slots);
    var parts := EnvelopeFields(e);
    var sum := Started(parts);
    sum := OneMore(sum, parts, 1);
    sum := OneMore(sum, parts, 2);
    sum := OneMore(sum, parts, 3);
    sum := OneMore(sum, parts, 4);
    sum := OneMore(sum, parts, 5);
    sum := OneMore(sum, parts, 6);
    sum := OneMore(sum, parts, 7);
    sum := OneMore(sum, parts, 8);
    sum := OneMore(sum, parts, 9);
    sum := OneMore(sum, parts, 10);
    sum := OneMore(sum, parts, 11);
    sum := OneMore(sum, parts, 12);
    sum := OneMore(sum, parts, 13);
    sum := OneMore(sum, parts, 14);
    Finished(sum, parts, 15);
  }

  lemma EnvelopeParts(e: Envelope)
    ensures EnvelopeFields(e) ==
            [Text(0x0A, e.kind), Text(0x12, e.requestID), Count(0x18, e.ballotCounter), Text(0x22, e.ballotNode),
             Count(0x28, e.slot), Text(0x32, e.key), Text(0x3A, e.value), Flag(0x40, e.success), Text(0x4A, e.error),
             Entries(e.entries), Count(0x58, e.acceptedCounter), Text(0x62, e.acceptedNode), Flag(0x68, e.committed),
             Text(0x72, e.session), Slots(e.slots)]
  {
    hide StringField, UintField, BoolField, Text, Count, Flag, Entries, Slots;
    FieldBytes(1, e.kind, 0, false);
    FieldBytes(2, e.requestID, 0, false);
    FieldBytes(3, [], e.ballotCounter, false);
    FieldBytes(4, e.ballotNode, 0, false);
    FieldBytes(5, [], e.slot, false);
    FieldBytes(6, e.key, 0, false);
    FieldBytes(7, e.value, 0, false);
    FieldBytes(8, [], 0, e.success);
    FieldBytes(9, e.error, 0, false);
    FieldBytes(11, [], e.acceptedCounter, false);
    FieldBytes(12, e.acceptedNode, 0, false);
    FieldBytes(13, [], 0, e.committed);
    FieldBytes(14, e.session, 0, false);
  }

  lemma {:induction false} EntriesEach(xs: seq<Entry>, ps: seq<Data>)
    requires |ps| == |xs| && forall i :: 0 <= i < |ps| ==> ps[i] == MarshalEntry(xs[i])
    ensures Entries(xs) == Each(0x52, ps)
  {
    hide MarshalEntry, Message, MessageField;
    if xs != [] {
      FieldBytes(10, ps[0], 0, false);
      EntriesEach(xs[1..], ps[1..]);
    }
  }

  lemma {:induction false} SlotsEach(xs: seq<SlotState>, ps: seq<Data>)
    requires |ps| == |xs| && forall i :: 0 <= i < |ps| ==> ps[i] == MarshalSlot(xs[i])
    ensures Slots(xs) == Each(0x7A, ps)
  {
    hide MarshalSlot, Message, MessageField;
    if xs != [] {
      FieldBytes(15, ps[0], 0, false);
      SlotsEach(xs[1..], ps[1..]);
    }
  }

  // ----- frames -----

  /** The header is the length in base 256, most significant digit first, and the envelope's own bytes follow. */
  lemma HeaderDigits(e: Envelope)
    requires |Marshal(e)| <= MAX_FRAME
    ensures var n, f := |Marshal(e)|, Frame(e);
            && f[0] == n / 0x100_0000 && f[1] == n / 0x1_0000 % 0x100 && f[2] == n / 0x100 % 0x100 && f[3] == n % 0x100
            && f[4..] == Marshal(e)
  {
    hide Marshal;
  }
}
