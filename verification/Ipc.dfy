/** Messages between the game and its client (client/internal/ipc/msg.go): big-endian, unlike
    everything that goes to disk or to the server. */
module Ipc {
  import opened Wrappers
  import opened Bytes

  const IPC_HELLO: byte := 0x01
  const IPC_WAL: byte := 0x02
  const IPC_WAL_QUERY: byte := 0x03
  const IPC_WAL_ACK: byte := 0x04
  const IPC_POSITION: byte := 0x05
  const IPC_INFO_ITEM: byte := 0x06
  const IPC_INFO_ENTRANCE: byte := 0x07

  datatype IpcError = MessageTooShort

  datatype Message = Message(seqNo: uint32, op: byte, payload: seq<byte>)

  datatype WalIn = WalIn(token: uint32, kind: byte, data: seq<byte>)

  datatype WalOut = WalOut(index: uint32, kind: byte, from: byte, playerName: Bytes8, data: seq<byte>)

  datatype WalItem = WalItem(to: byte, game: byte, gi: uint16, flags: uint16, key: uint32)

  function ParseMessage(data: seq<byte>): Result<Message, IpcError> {
    if |data| < 5 then Err(MessageTooShort)
    else Ok(Message(FromBE32(data[0..4]), data[4], data[5..]))
  }

  function SerializeMessage(m: Message): seq<byte> {
    BE32(m.seqNo) + [m.op] + m.payload
  }

  function ParseWalIn(data: seq<byte>): Result<WalIn, IpcError> {
    if |data| < 5 then Err(MessageTooShort)
    else Ok(WalIn(FromBE32(data[0..4]), data[4], data[5..]))
  }

  function ParseWalItem(data: seq<byte>): Result<WalItem, IpcError> {
    if |data| < 10 then Err(MessageTooShort)
    else Ok(WalItem(data[0], data[1], FromBE16(data[2..4]), FromBE16(data[4..6]), FromBE32(data[6..10])))
  }

  function SerializeWalItem(i: WalItem): (b: seq<byte>)
    ensures |b| == 10
  {
    [i.to, i.game] + BE16(i.gi) + BE16(i.flags) + BE32(i.key)
  }

  function ParseWalEvent(data: seq<byte>): Result<uint32, IpcError> {
    if |data| < 4 then Err(MessageTooShort)
    else Ok(FromBE32(data[0..4]))
  }

  function SerializeWalEvent(eventID: uint32): (b: seq<byte>)
    ensures |b| == 4
  {
    BE32(eventID)
  }

  function SerializeWalOut(w: WalOut): (b: seq<byte>)
    ensures |b| == 14 + |w.data|
  {
    BE32(w.index) + [w.kind, w.from] + w.playerName + w.data
  }

  /** How a reader of the format takes a WAL_OUT body apart. */
  function ReadWalOut(b: seq<byte>): WalOut
    requires |b| >= 14
  {
    WalOut(FromBE32(b[0..4]), b[4], b[5], b[6..14], b[14..])
  }

  lemma ParsesIff(d: seq<byte>)
    ensures ParseMessage(d).Ok? <==> |d| >= 5
    ensures ParseWalIn(d).Ok? <==> |d| >= 5
  {
  }

  /** Where the parts of a message are. */
  lemma MessageLayout(m: Message)
    ensures var b := SerializeMessage(m);
            |b| == 5 + |m.payload| && b[0..4] == BE32(m.seqNo) && b[4] == m.op && b[5..] == m.payload
  {
  }

  /** Where the parts of a report are, and of the item in it. */
  lemma ReportLayout(token: uint32, kind: byte, data: seq<byte>)
    ensures ParseWalIn(BE32(token) + [kind] + data) == Ok(WalIn(token, kind, data))
  {
    var b := BE32(token) + [kind] + data;
    assert b[0..4] == BE32(token) && b[5..] == data;
    BE32Inverse(token);
  }

  lemma ItemLayout(i: WalItem)
    ensures var b := SerializeWalItem(i);
            && b[0] == i.to && b[1] == i.game && b[2..4] == BE16(i.gi) && b[4..6] == BE16(i.flags)
            && b[6..10] == BE32(i.key)
  {
  }

  /** Where the parts of a log message to the game are. */
  lemma WalOutLayout(w: WalOut)
    ensures var b := SerializeWalOut(w);
            && b[0..4] == BE32(w.index) && b[4] == w.kind && b[5] == w.from && b[6..14] == w.playerName
            && b[14..] == w.data
  {
    var b := SerializeWalOut(w);
    assert b[6..14] == w.playerName;
  }

  lemma MessageRoundTrip(m: Message)
    ensures ParseMessage(SerializeMessage(m)) == Ok(m)
  {
    var d := SerializeMessage(m);
    assert d[0..4] == BE32(m.seqNo);
    assert d[5..] == m.payload;
    BE32Inverse(m.seqNo);
  }

  lemma WalItemRoundTrip(i: WalItem, rest: seq<byte>)
    ensures ParseWalItem(SerializeWalItem(i) + rest) == Ok(i)
  {
    var d := SerializeWalItem(i) + rest;
    assert d[2..4] == BE16(i.gi);
    assert d[4..6] == BE16(i.flags);
    assert d[6..10] == BE32(i.key);
    BE32Inverse(i.key);
  }

  lemma WalEventRoundTrip(eventID: uint32, rest: seq<byte>)
    ensures ParseWalEvent(SerializeWalEvent(eventID) + rest) == Ok(eventID)
  {
    assert (SerializeWalEvent(eventID) + rest)[0..4] == BE32(eventID);
    BE32Inverse(eventID);
  }

  lemma WalOutRoundTrip(w: WalOut)
    ensures ReadWalOut(SerializeWalOut(w)) == w
  {
    var d := SerializeWalOut(w);
    assert d[0..4] == BE32(w.index);
    assert d[6..14] == w.playerName;
    assert d[14..] == w.data;
    BE32Inverse(w.index);
  }
}
