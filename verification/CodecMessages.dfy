/** The messages the replicas exchange, and that decoding undoes encoding. */
module CodecMessages {
  import opened Bytes
  import opened CodecWire

  /** The longest a byte string can be in the program. */
  const MAX_INT := 0x7FFF_FFFF_FFFF_FFFF

  datatype Entry = Entry(key: Data, value: Data)

  datatype SlotState = SlotState(
    slot: U64, promisedCounter: U64, promisedNode: Data, acceptedCounter: U64, acceptedNode: Data,
    key: Data, value: Data, committed: bool, requestID: Data)

  datatype Envelope = Envelope(
    kind: Data, requestID: Data, ballotCounter: U64, ballotNode: Data, slot: U64, key: Data, value: Data, success: bool,
    error: Data, entries: seq<Entry>, acceptedCounter: U64, acceptedNode: Data, committed: bool, session: Data, slots: seq<SlotState>)

  const NO_ENTRY := Entry([], [])
  const NO_SLOT := SlotState(0, 0, [], 0, [], [], [], false, [])
  const NO_ENVELOPE := Envelope([], [], 0, [], 0, [], [], false, [], [], 0, [], false, [], [])

  // ----- writing -----

  function Concat(parts: seq<Data>): Data {
    if parts == [] then [] else parts[0] + Concat(parts[1..])
  }

  function EntryFields(x: Entry): seq<Data> {
    [StringField(1, x.key), StringField(2, x.value)]
  }

  function MarshalEntry(x: Entry): Data {
    Concat(EntryFields(x))
  }

  function SlotFields(s: SlotState): seq<Data> {
    [UintField(1, s.slot), UintField(2, s.promisedCounter), StringField(3, s.promisedNode),
     UintField(4, s.acceptedCounter), StringField(5, s.acceptedNode), StringField(6, s.key),
     StringField(7, s.value), BoolField(8, s.committed), StringField(9, s.requestID)]
  }

  function MarshalSlot(s: SlotState): Data {
    Concat(SlotFields(s))
  }

  /** One field per entry, in order; none is left out. */
  function Entries(xs: seq<Entry>): Data {
    if xs == [] then [] else MessageField(10, MarshalEntry(xs[0])) + Entries(xs[1..])
  }

  function Slots(xs: seq<SlotState>): Data {
    if xs == [] then [] else MessageField(15, MarshalSlot(xs[0])) + Slots(xs[1..])
  }

  function EnvelopeFields(e: Envelope): seq<Data> {
    [StringField(1, e.kind), StringField(2, e.requestID), UintField(3, e.ballotCounter), StringField(4, e.ballotNode),
     UintField(5, e.slot), StringField(6, e.key), StringField(7, e.value), BoolField(8, e.success), StringField(9, e.error),
     Entries(e.entries), UintField(11, e.acceptedCounter), StringField(12, e.acceptedNode), BoolField(13, e.committed),
     StringField(14, e.session), Slots(e.slots)]
  }

  function Marshal(e: Envelope): Data {
    Concat(EnvelopeFields(e))
  }

  // ----- reading -----

  function PutEntry(x: Entry, field: nat, v: nat, p: Data): Result<Entry> {
    if field == 1 then Ok(x.(key := p))
    else if field == 2 then Ok(x.(value := p))
    else Ok(x)
  }

  function PutSlot(s: SlotState, field: nat, v: nat, p: Data): Result<SlotState> {
    var n: U64 := v % TWO_64;
    if field == 1 then Ok(s.(slot := n))
    else if field == 2 then Ok(s.(promisedCounter := n))
    else if field == 3 then Ok(s.(promisedNode := p))
    else if field == 4 then Ok(s.(acceptedCounter := n))
    else if field == 5 then Ok(s.(acceptedNode := p))
    else if field == 6 then Ok(s.(key := p))
    else if field == 7 then Ok(s.(value := p))
    else if field == 8 then Ok(s.(committed := v != 0))
    else if field == 9 then Ok(s.(requestID := p))
    else Ok(s)
  }

  function PutEnvelope(e: Envelope, field: nat, v: nat, p: Data): Result<Envelope> {
    var n: U64 := v % TWO_64;
    if field == 1 then Ok(e.(kind := p))
    else if field == 2 then Ok(e.(requestID := p))
    else if field == 3 then Ok(e.(ballotCounter := n))
    else if field == 4 then Ok(e.(ballotNode := p))
    else if field == 5 then Ok(e.(slot := n))
    else if field == 6 then Ok(e.(key := p))
    else if field == 7 then Ok(e.(value := p))
    else if field == 8 then Ok(e.(success := v != 0))
    else if field == 9 then Ok(e.(error := p))
    else if field == 10 then PutNewEntry(e, p)
    else if field == 11 then Ok(e.(acceptedCounter := n))
    else if field == 12 then Ok(e.(acceptedNode := p))
    else if field == 13 then Ok(e.(committed := v != 0))
    else if field == 14 then Ok(e.(session := p))
    else if field == 15 then PutNewSlot(e, p)
    else Ok(e)
  }

  function PutNewEntry(e: Envelope, p: Data): Result<Envelope> {
    match ReadFields(p, NO_ENTRY, PutEntry)
    case Err(error) => Err(error)
    case Ok(x) => Ok(e.(entries := e.entries + [x]))
  }

  function PutNewSlot(e: Envelope, p: Data): Result<Envelope> {
    match ReadFields(p, NO_SLOT, PutSlot)
    case Err(error) => Err(error)
    case Ok(s) => Ok(e.(slots := e.slots + [s]))
  }

  function Decoded(b: Data): Result<Envelope> {
    ReadFields(b, NO_ENVELOPE, PutEnvelope)
  }

  method Unmarshal(b: Data) returns (r: Result<Envelope>)
    ensures r == Decoded(b)
  {
    r := DecodeFields(b, NO_ENVELOPE, PutEnvelope);
  }

  // ----- lengths -----

  lemma {:induction false} PartIsShorter(parts: seq<Data>, i: nat)
    requires i < |parts|
    ensures |parts[i]| <= |Concat(parts)|
  {
    if i > 0 {
      PartIsShorter(parts[1..], i - 1);
      assert parts[1..][i - 1] == parts[i];
    }
  }

  /** The `i`th part and what follows it. */
  lemma ConcatFrom(parts: seq<Data>, i: nat)
    requires i < |parts|
    ensures Concat(parts[i..]) == parts[i] + Concat(parts[i + 1..])
  {
    assert parts[i..][1..] == parts[i + 1..];
  }

  lemma StringPart(parts: seq<Data>, i: nat, field: nat, s: Data)
    requires i < |parts| && parts[i] == StringField(field, s) && |Concat(parts)| <= MAX_INT
    ensures |s| < TWO_64 && Concat(parts[i..]) == StringField(field, s) + Concat(parts[i + 1..])
  {
    hide Tag, Varint, Concat;
    PartIsShorter(parts, i);
    ConcatFrom(parts, i);
  }

  // ----- round trips -----

  lemma EntryRoundTrip(x: Entry)
    requires |MarshalEntry(x)| <= MAX_INT
    ensures ReadFields(MarshalEntry(x), NO_ENTRY, PutEntry) == Ok(x)
  {
    hide ReadFields, StringField, Concat;
    var parts := EntryFields(x);
    var x1 := NO_ENTRY.(key := x.key);
    assert parts[0..] == parts;
    StringPart(parts, 0, 1, x.key);
    StringFieldRead(1, x.key, Concat(parts[1..]), NO_ENTRY, PutEntry);
    StringPart(parts, 1, 2, x.value);
    StringFieldRead(2, x.value, Concat(parts[2..]), x1, PutEntry);
    NothingLeft(parts, x, PutEntry);
  }

  lemma NothingLeft<T>(parts: seq<Data>, acc: T, put: Setter<T>)
    ensures ReadFields(Concat(parts[|parts|..]), acc, put) == Ok(acc)
  {
    assert parts[|parts|..] == [];
  }

  lemma SlotRoundTrip(s: SlotState)
    requires |MarshalSlot(s)| <= MAX_INT
    ensures ReadFields(MarshalSlot(s), NO_SLOT, PutSlot) == Ok(s)
  {
    hide ReadFields, StringField, UintField, BoolField, Concat;
    var parts := SlotFields(s);
    var s1 := NO_SLOT.(slot := s.slot, promisedCounter := s.promisedCounter, promisedNode := s.promisedNode, acceptedCounter := s.acceptedCounter);
    assert parts[0..] == parts;
    SlotFirstFour(s, parts, s1);
    var s2 := s1.(acceptedNode := s.acceptedNode, key := s.key, value := s.value);
    StringPart(parts, 4, 5, s.acceptedNode);
    StringFieldRead(5, s.acceptedNode, Concat(parts[5..]), s1, PutSlot);
    StringPart(parts, 5, 6, s.key);
    StringFieldRead(6, s.key, Concat(parts[6..]), s1.(acceptedNode := s.acceptedNode), PutSlot);
    StringPart(parts, 6, 7, s.value);
    StringFieldRead(7, s.value, Concat(parts[7..]), s1.(acceptedNode := s.acceptedNode, key := s.key), PutSlot);
    ConcatFrom(parts, 7);
    BoolFieldRead(8, s.committed, Concat(parts[8..]), s2, PutSlot);
    StringPart(parts, 8, 9, s.requestID);
    StringFieldRead(9, s.requestID, Concat(parts[9..]), s2.(committed := s.committed), PutSlot);
    NothingLeft(parts, s, PutSlot);
  }

  lemma SlotFirstFour(s: SlotState, parts: seq<Data>, s1: SlotState)
    requires |MarshalSlot(s)| <= MAX_INT && parts == SlotFields(s)
    requires s1 == NO_SLOT.(slot := s.slot, promisedCounter := s.promisedCounter, promisedNode := s.promisedNode, acceptedCounter := s.acceptedCounter)
    ensures ReadFields(Concat(parts[0..]), NO_SLOT, PutSlot) == ReadFields(Concat(parts[4..]), s1, PutSlot)
  {
    hide ReadFields, StringField, UintField, BoolField, Concat;
    assert parts[0..] == parts;
    ConcatFrom(parts, 0);
    UintFieldRead(1, s.slot, Concat(parts[1..]), NO_SLOT, PutSlot);
    ConcatFrom(parts, 1);
    UintFieldRead(2, s.promisedCounter, Concat(parts[2..]), NO_SLOT.(slot := s.slot), PutSlot);
    StringPart(parts, 2, 3, s.promisedNode);
    StringFieldRead(3, s.promisedNode, Concat(parts[3..]), NO_SLOT.(slot := s.slot, promisedCounter := s.promisedCounter), PutSlot);
    ConcatFrom(parts, 3);
    UintFieldRead(4, s.acceptedCounter, Concat(parts[4..]), s1.(acceptedCounter := 0), PutSlot);
  }

  lemma {:induction false} EntriesRead(xs: seq<Entry>, rest: Data, e: Envelope)
    requires |Entries(xs)| <= MAX_INT
    ensures ReadFields(Entries(xs) + rest, e, PutEnvelope) == ReadFields(rest, e.(entries := e.entries + xs), PutEnvelope)
  {
    hide ReadFields, Tag, Varint, MarshalEntry;
    if xs == [] {
      assert Entries(xs) + rest == rest && e.(entries := e.entries + xs) == e;
    } else {
      var p := MarshalEntry(xs[0]);
      EntryRoundTrip(xs[0]);
      var more := Entries(xs[1..]) + rest;
      assert Entries(xs) + rest == MessageField(10, p) + more;
      MessageFieldRead(10, p, more, e, PutEnvelope);
      var e1 := e.(entries := e.entries + [xs[0]]);
      EntriesRead(xs[1..], rest, e1);
      assert e1.entries + xs[1..] == e.entries + xs;
    }
  }

  lemma {:induction false} SlotsRead(xs: seq<SlotState>, rest: Data, e: Envelope)
    requires |Slots(xs)| <= MAX_INT
    ensures ReadFields(Slots(xs) + rest, e, PutEnvelope) == ReadFields(rest, e.(slots := e.slots + xs), PutEnvelope)
  {
    hide ReadFields, Tag, Varint, MarshalSlot;
    if xs == [] {
      assert Slots(xs) + rest == rest && e.(slots := e.slots + xs) == e;
    } else {
      var p := MarshalSlot(xs[0]);
      SlotRoundTrip(xs[0]);
      var more := Slots(xs[1..]) + rest;
      assert Slots(xs) + rest == MessageField(15, p) + more;
      MessageFieldRead(15, p, more, e, PutEnvelope);
      var e1 := e.(slots := e.slots + [xs[0]]);
      SlotsRead(xs[1..], rest, e1);
      assert e1.slots + xs[1..] == e.slots + xs;
    }
  }

  /** The envelope with its first fields read. */
  function FirstFive(e: Envelope): Envelope {
    NO_ENVELOPE.(kind := e.kind, requestID := e.requestID, ballotCounter := e.ballotCounter, ballotNode := e.ballotNode, slot := e.slot)
  }

  function FirstTen(e: Envelope): Envelope {
    FirstFive(e).(key := e.key, value := e.value, success := e.success, error := e.error, entries := e.entries)
  }

  lemma EnvelopeFirstFive(e: Envelope, parts: seq<Data>)
    requires |Marshal(e)| <= MAX_INT && parts == EnvelopeFields(e)
    ensures ReadFields(Concat(parts[0..]), NO_ENVELOPE, PutEnvelope) == ReadFields(Concat(parts[5..]), FirstFive(e), PutEnvelope)
  {
    hide ReadFields, StringField, UintField, BoolField, Concat, Entries, Slots;
    assert parts[0..] == parts;
    var e0 := NO_ENVELOPE;
    StringPart(parts, 0, 1, e.kind);
    StringFieldRead(1, e.kind, Concat(parts[1..]), e0, PutEnvelope);
    var e1 := e0.(kind := e.kind);
    StringPart(parts, 1, 2, e.requestID);
    StringFieldRead(2, e.requestID, Concat(parts[2..]), e1, PutEnvelope);
    var e2 := e1.(requestID := e.requestID);
    ConcatFrom(parts, 2);
    UintFieldRead(3, e.ballotCounter, Concat(parts[3..]), e2, PutEnvelope);
    var e3 := e2.(ballotCounter := e.ballotCounter);
    StringPart(parts, 3, 4, e.ballotNode);
    StringFieldRead(4, e.ballotNode, Concat(parts[4..]), e3, PutEnvelope);
    var e4 := e3.(ballotNode := e.ballotNode);
    ConcatFrom(parts, 4);
    UintFieldRead(5, e.slot, Concat(parts[5..]), e4, PutEnvelope);
  }

  function FirstEight(e: Envelope): Envelope {
    FirstFive(e).(key := e.key, value := e.value, success := e.success)
  }

  lemma EnvelopeNextThree(e: Envelope, parts: seq<Data>)
    requires |Marshal(e)| <= MAX_INT && parts == EnvelopeFields(e)
    ensures ReadFields(Concat(parts[5..]), FirstFive(e), PutEnvelope) == ReadFields(Concat(parts[8..]), FirstEight(e), PutEnvelope)
  {
    hide ReadFields, StringField, UintField, BoolField, Concat, Entries, Slots;
    var e5 := FirstFive(e);
    StringPart(parts, 5, 6, e.key);
    StringFieldRead(6, e.key, Concat(parts[6..]), e5, PutEnvelope);
    var e6 := e5.(key := e.key);
    StringPart(parts, 6, 7, e.value);
    StringFieldRead(7, e.value, Concat(parts[7..]), e6, PutEnvelope);
    var e7 := e6.(value := e.value);
    ConcatFrom(parts, 7);
    BoolFieldRead(8, e.success, Concat(parts[8..]), e7, PutEnvelope);
  }

  lemma EnvelopeNextTwo(e: Envelope, parts: seq<Data>)
    requires |Marshal(e)| <= MAX_INT && parts == EnvelopeFields(e)
    ensures ReadFields(Concat(parts[8..]), FirstEight(e), PutEnvelope) == ReadFields(Concat(parts[10..]), FirstTen(e), PutEnvelope)
  {
    hide ReadFields, StringField, UintField, BoolField, Concat, Entries, Slots;
    var e8 := FirstEight(e);
    StringPart(parts, 8, 9, e.error);
    StringFieldRead(9, e.error, Concat(parts[9..]), e8, PutEnvelope);
    var e9 := e8.(error := e.error);
    ConcatFrom(parts, 9);
    PartIsShorter(parts, 9);
    EntriesRead(e.entries, Concat(parts[10..]), e9);
    assert [] + e.entries == e.entries;
  }

  function FirstThirteen(e: Envelope): Envelope {
    FirstTen(e).(acceptedCounter := e.acceptedCounter, acceptedNode := e.acceptedNode, committed := e.committed)
  }

  lemma EnvelopeThreeMore(e: Envelope, parts: seq<Data>)
    requires |Marshal(e)| <= MAX_INT && parts == EnvelopeFields(e)
    ensures ReadFields(Concat(parts[10..]), FirstTen(e), PutEnvelope) == ReadFields(Concat(parts[13..]), FirstThirteen(e), PutEnvelope)
  {
    hide ReadFields, StringField, UintField, BoolField, Concat, Entries, Slots;
    var e10 := FirstTen(e);
    ConcatFrom(parts, 10);
    UintFieldRead(11, e.acceptedCounter, Concat(parts[11..]), e10, PutEnvelope);
    var e11 := e10.(acceptedCounter := e.acceptedCounter);
    StringPart(parts, 11, 12, e.acceptedNode);
    StringFieldRead(12, e.acceptedNode, Concat(parts[12..]), e11, PutEnvelope);
    var e12 := e11.(acceptedNode := e.acceptedNode);
    ConcatFrom(parts, 12);
    BoolFieldRead(13, e.committed, Concat(parts[13..]), e12, PutEnvelope);
  }

  lemma EnvelopeLastTwo(e: Envelope, parts: seq<Data>)
    requires |Marshal(e)| <= MAX_INT && parts == EnvelopeFields(e)
    ensures ReadFields(Concat(parts[13..]), FirstThirteen(e), PutEnvelope) == Ok(e)
  {
    hide ReadFields, StringField, UintField, BoolField, Concat, Entries, Slots;
    var e13 := FirstThirteen(e);
    StringPart(parts, 13, 14, e.session);
    StringFieldRead(14, e.session, Concat(parts[14..]), e13, PutEnvelope);
    var e14 := e13.(session := e.session);
    ConcatFrom(parts, 14);
    PartIsShorter(parts, 14);
    SlotsRead(e.slots, Concat(parts[15..]), e14);
    assert [] + e.slots == e.slots;
    NothingLeft(parts, e, PutEnvelope);
  }

  /** Decoding what was encoded gives back the same envelope: zero values left out, full-range numbers, and every entry
      and slot in order. */
  lemma RoundTrip(e: Envelope)
    requires |Marshal(e)| <= MAX_INT
    ensures Decoded(Marshal(e)) == Ok(e)
  {
    hide ReadFields, Concat, EnvelopeFields;
    var parts := EnvelopeFields(e);
    assert parts[0..] == parts;
    EnvelopeFirstFive(e, parts);
    EnvelopeNextThree(e, parts);
    EnvelopeNextTwo(e, parts);
    EnvelopeThreeMore(e, parts);
    EnvelopeLastTwo(e, parts);
  }
}
