/** A WAL entry, its serialized form, and its deduplication key
    (shared/wal/types.go, shared/wal/serialize.go, shared/wal/key.go). */
module WalEntry {
  import opened Wrappers
  import opened Bytes

  const WAL_ITEM: byte := 0x01
  const WAL_EVENT: byte := 0x02

  // Payload lengths of the two kinds of entry.
  const ITEM_LENGTH: nat := 40
  const EVENT_LENGTH: nat := 30

  /** `To` and `GI` are who receives the item and which item it is; `key` is the location it came
      from; `nonce` tells apart reports of a renewable location. */
  datatype Item = Item(to: byte, game: byte, gi: uint16, flags: uint16, key: uint32, nonce: uint32)

  /** As in the Go struct, both variants are always present and `kind` says which one is in use. */
  datatype Entry = Entry(kind: byte, playerID: Bytes16, playerName: Bytes8, from: byte,
                         item: Item, eventID: uint32)

  const ZERO_ITEM := Item(0, 0, 0, 0, 0, 0)

  type Key = Bytes16

  datatype CodecError = TooShort | UnknownType

  predicate Known(e: Entry) {
    e.kind == WAL_ITEM || e.kind == WAL_EVENT
  }

  /** The entry with its unused variant zeroed: what survives a trip through the serialized form. */
  function Normal(e: Entry): Entry {
    if e.kind == WAL_ITEM then e.(eventID := 0)
    else if e.kind == WAL_EVENT then e.(item := ZERO_ITEM)
    else e
  }

  predicate IsNormal(e: Entry) {
    Known(e) && Normal(e) == e
  }

  // ---- The codec -----------------------------------------------------------

  function Parse(data: seq<byte>): Result<Entry, CodecError> {
    if |data| < 26 then Err(TooShort)
    else
      var base := Entry(data[0], data[1..17], data[17..25], data[25], ZERO_ITEM, 0);
      if base.kind == WAL_ITEM then
        if |data| < 40 then Err(TooShort)
        else
          Ok(base.(item := Item(data[26], data[27], FromLE16(data[28..30]), FromLE16(data[30..32]),
                                FromLE32(data[32..36]), FromLE32(data[36..40]))))
      else if base.kind == WAL_EVENT then
        if |data| < 30 then Err(TooShort)
        else Ok(base.(eventID := FromLE32(data[26..30])))
      else Err(UnknownType)
  }

  function Prefix(e: Entry): (b: seq<byte>)
    ensures |b| == 26
  {
    [e.kind] + e.playerID + e.playerName + [e.from]
  }

  function ItemBytes(i: Item): (b: seq<byte>)
    ensures |b| == 14
  {
    [i.to, i.game] + LE16(i.gi) + LE16(i.flags) + LE32(i.key) + LE32(i.nonce)
  }

  function Serialize(e: Entry): Result<seq<byte>, CodecError> {
    if e.kind == WAL_ITEM then Ok(Prefix(e) + ItemBytes(e.item))
    else if e.kind == WAL_EVENT then Ok(Prefix(e) + LE32(e.eventID))
    else Err(UnknownType)
  }

  function Zeros(n: nat): (b: seq<byte>)
    ensures |b| == n
  {
    seq(n, i => 0)
  }

  function DedupKey(e: Entry): Result<Key, CodecError> {
    if e.kind == WAL_ITEM then
      Ok([e.kind, e.from, e.item.game] + LE32(e.item.key) + LE32(e.item.nonce) + Zeros(5))
    else if e.kind == WAL_EVENT then
      Ok([e.kind, e.from] + LE32(e.eventID) + Zeros(10))
    else Err(UnknownType)
  }

  /** The key of an entry whose type is known. */
  function KeyOf(e: Entry): Key
    requires Known(e)
  {
    DedupKey(e).value
  }

  // ---- The code, step by step ----------------------------------------------

  /** serialize.go grows one buffer, field by field. */
  method BuildPayload(e: Entry) returns (r: Result<seq<byte>, CodecError>)
    ensures r == Serialize(e)
  {
    var buf: seq<byte> := [];
    buf := buf + [e.kind];
    buf := buf + e.playerID;
    buf := buf + e.playerName;
    buf := buf + [e.from];
    if e.kind == WAL_ITEM {
      buf := buf + [e.item.to];
      buf := buf + [e.item.game];
      assert buf == Prefix(e) + [e.item.to, e.item.game];
      buf := buf + LE16(e.item.gi);
      buf := buf + LE16(e.item.flags);
      buf := buf + LE32(e.item.key);
      buf := buf + LE32(e.item.nonce);
      assert buf == Prefix(e) + ItemBytes(e.item);
    } else if e.kind == WAL_EVENT {
      buf := buf + LE32(e.eventID);
      assert buf == Prefix(e) + LE32(e.eventID);
    } else {
      return Err(UnknownType);
    }
    return Ok(buf);
  }

  method Put32(a: array<byte>, at: nat, b: seq<byte>)
    requires |b| == 4 && at + 4 <= a.Length
    modifies a
    ensures a[..] == old(a[..at]) + b + old(a[at + 4..])
  {
    a[at], a[at + 1], a[at + 2], a[at + 3] := b[0], b[1], b[2], b[3];
  }

  /** key.go fills a zeroed 16-byte array in place. */
  method FillKey(e: Entry) returns (r: Result<Key, CodecError>)
    ensures r == DedupKey(e)
  {
    var key := new byte[16](i => 0);
    key[0] := e.kind;
    key[1] := e.from;
    if e.kind == WAL_ITEM {
      key[2] := e.item.game;
      Put32(key, 3, LE32(e.item.key));
      Put32(key, 7, LE32(e.item.nonce));
      assert key[..] == [e.kind, e.from, e.item.game] + LE32(e.item.key) + LE32(e.item.nonce) + Zeros(5);
    } else if e.kind == WAL_EVENT {
      Put32(key, 2, LE32(e.eventID));
      assert key[..] == [e.kind, e.from] + LE32(e.eventID) + Zeros(10);
    } else {
      return Err(UnknownType);
    }
    return Ok(key[..]);
  }

  // ---- Normal form ---------------------------------------------------------

  lemma PrefixFields(e: Entry, rest: seq<byte>)
    ensures var d := Prefix(e) + rest;
            d[0] == e.kind && d[1..17] == e.playerID && d[17..25] == e.playerName && d[25] == e.from
  {
    var d := Prefix(e) + rest;
    assert d[1..17] == e.playerID;
    assert d[17..25] == e.playerName;
  }

  lemma ItemFields(p: seq<byte>, i: Item, rest: seq<byte>)
    requires |p| == 26
    ensures var d := p + ItemBytes(i) + rest;
            && d[26] == i.to && d[27] == i.game
            && FromLE16(d[28..30]) == i.gi && FromLE16(d[30..32]) == i.flags
            && FromLE32(d[32..36]) == i.key && FromLE32(d[36..40]) == i.nonce
  {
    var d := p + ItemBytes(i) + rest;
    assert d[28..30] == LE16(i.gi);
    assert d[30..32] == LE16(i.flags);
    assert d[32..36] == LE32(i.key);
    assert d[36..40] == LE32(i.nonce);
    LE16Inverse(i.gi);
    LE16Inverse(i.flags);
    LE32Inverse(i.key);
    LE32Inverse(i.nonce);
  }

  /** Decoding an encoded entry, whatever bytes follow it, gives its normal form. */
  lemma ParseSerialize(e: Entry, rest: seq<byte>)
    requires Known(e)
    ensures Serialize(e).Ok?
    ensures |Serialize(e).value| == if e.kind == WAL_ITEM then 40 else 30
    ensures Parse(Serialize(e).value + rest) == Ok(Normal(e))
  {
    var p := Prefix(e);
    if e.kind == WAL_ITEM {
      var d := p + ItemBytes(e.item) + rest;
      assert d == p + (ItemBytes(e.item) + rest);
      PrefixFields(e, ItemBytes(e.item) + rest);
      ItemFields(p, e.item, rest);
    } else {
      var d := p + LE32(e.eventID) + rest;
      assert d == p + (LE32(e.eventID) + rest);
      PrefixFields(e, LE32(e.eventID) + rest);
      assert d[26..30] == LE32(e.eventID);
      LE32Inverse(e.eventID);
    }
  }

  /** What parses: items of 40 bytes or more and events of 30 or more. */
  lemma ParsesIff(d: seq<byte>)
    ensures Parse(d).Ok? <==> (|d| >= 40 && d[0] == WAL_ITEM) || (|d| >= 30 && d[0] == WAL_EVENT)
  {
  }

  /** Where each field of an entry is, on disk and on the wire. */
  lemma EntryLayout(e: Entry)
    requires Known(e)
    ensures Serialize(e).Ok?
    ensures var d := Serialize(e).value;
            && |d| >= 30 && d[0] == e.kind && d[1..17] == e.playerID && d[17..25] == e.playerName && d[25] == e.from
            && (e.kind == WAL_ITEM ==>
                  && |d| == 40 && d[26] == e.item.to && d[27] == e.item.game && d[28..30] == LE16(e.item.gi)
                  && d[30..32] == LE16(e.item.flags) && d[32..36] == LE32(e.item.key)
                  && d[36..40] == LE32(e.item.nonce))
            && (e.kind == WAL_EVENT ==> |d| == 30 && d[26..30] == LE32(e.eventID))
  {
    PrefixFields(e, if e.kind == WAL_ITEM then ItemBytes(e.item) else LE32(e.eventID));
  }

  /** Where each field of a key is; the rest is zero. */
  lemma KeyLayout(e: Entry)
    requires Known(e)
    ensures var k := KeyOf(e);
            && k[0] == e.kind && k[1] == e.from
            && (e.kind == WAL_ITEM ==>
                  && k[2] == e.item.game && k[3..7] == LE32(e.item.key) && k[7..11] == LE32(e.item.nonce)
                  && forall j :: 11 <= j < 16 ==> k[j] == 0)
            && (e.kind == WAL_EVENT ==> k[2..6] == LE32(e.eventID) && forall j :: 6 <= j < 16 ==> k[j] == 0)
  {
    var k := KeyOf(e);
    if e.kind == WAL_ITEM {
      assert k[3..7] == LE32(e.item.key);
      assert k[7..11] == LE32(e.item.nonce);
    }
  }

  lemma ParseSerializeExact(e: Entry)
    requires Known(e)
    ensures Serialize(e).Ok? && Parse(Serialize(e).value) == Ok(Normal(e))
  {
    ParseSerialize(e, []);
    assert Serialize(e).value + [] == Serialize(e).value;
  }

  /** Whatever parses is in normal form, and re-encoding it gives back the meaningful bytes. */
  lemma SerializeParse(data: seq<byte>)
    requires Parse(data).Ok?
    ensures var e := Parse(data).value;
            && IsNormal(e)
            && Serialize(e) == Ok(data[..if e.kind == WAL_ITEM then ITEM_LENGTH else EVENT_LENGTH])
  {
    var e := Parse(data).value;
    assert Prefix(e) == data[..26];
    if e.kind == WAL_ITEM {
      LE16Onto(data[28..30]);
      LE16Onto(data[30..32]);
      LE32Onto(data[32..36]);
      LE32Onto(data[36..40]);
      assert ItemBytes(e.item) == [data[26], data[27]] + data[28..30] + data[30..32] + data[32..36] + data[36..40];
      assert ItemBytes(e.item) == data[26..40];
      assert data[..40] == data[..26] + data[26..40];
    } else {
      LE32Onto(data[26..30]);
      assert data[..30] == data[..26] + data[26..30];
    }
  }

  // ---- Keys ----------------------------------------------------------------

  /** What a deduplication key identifies. */
  predicate SameSlot(x: Entry, y: Entry) {
    && x.kind == y.kind && x.from == y.from
    && (x.kind == WAL_ITEM ==>
          x.item.game == y.item.game && x.item.key == y.item.key && x.item.nonce == y.item.nonce)
    && (x.kind == WAL_EVENT ==> x.eventID == y.eventID)
  }

  lemma ItemKeyFields(e: Entry)
    requires e.kind == WAL_ITEM
    ensures var k := KeyOf(e);
            && k[0] == WAL_ITEM && k[1] == e.from && k[2] == e.item.game
            && FromLE32(k[3..7]) == e.item.key && FromLE32(k[7..11]) == e.item.nonce
  {
    var k := KeyOf(e);
    assert k[3..7] == LE32(e.item.key);
    assert k[7..11] == LE32(e.item.nonce);
    LE32Inverse(e.item.key);
    LE32Inverse(e.item.nonce);
  }

  lemma EventKeyFields(e: Entry)
    requires e.kind == WAL_EVENT
    ensures var k := KeyOf(e);
            k[0] == WAL_EVENT && k[1] == e.from && FromLE32(k[2..6]) == e.eventID
  {
    var k := KeyOf(e);
    assert k[2..6] == LE32(e.eventID);
    LE32Inverse(e.eventID);
  }

  /** Two entries share a key exactly when they name the same slot: an item key never equals an
      event key, and no field of the slot is lost. */
  lemma KeyInjective(x: Entry, y: Entry)
    requires Known(x) && Known(y)
    ensures KeyOf(x) == KeyOf(y) <==> SameSlot(x, y)
  {
    if x.kind == WAL_ITEM { ItemKeyFields(x); } else { EventKeyFields(x); }
    if y.kind == WAL_ITEM { ItemKeyFields(y); } else { EventKeyFields(y); }
  }

  /** The key computed from the received bytes is the key of the entry that was sent. */
  lemma KeySurvivesCodec(e: Entry, rest: seq<byte>)
    requires Known(e)
    ensures Serialize(e).Ok? && Parse(Serialize(e).value + rest).Ok?
    ensures DedupKey(Parse(Serialize(e).value + rest).value) == DedupKey(e)
  {
    ParseSerialize(e, rest);
  }
}
