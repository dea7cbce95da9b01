/** Bodies of the packets the log protocol exchanges (shared/protocol/packet.go). */
module Packets {
  import opened Wrappers
  import opened Bytes
  import opened WalEntry

  datatype ServerWal = ServerWal(index: uint32, entry: Entry)

  datatype ClientHello = ClientHello(magic: Bytes8, version: uint32, sessionID: Bytes16,
                                     sessionSecret: Bytes8, playerID: Bytes16, playerName: Bytes8,
                                     worldID: byte, walIndex: uint32)

  function ParseServerWal(data: seq<byte>): Result<ServerWal, CodecError> {
    if |data| < 4 then Err(TooShort)
    else
      match Parse(data[4..])
      case Err(x) => Err(x)
      case Ok(e) => Ok(ServerWal(FromLE32(data[0..4]), e))
  }

  function SerializeServerWal(x: ServerWal): Result<seq<byte>, CodecError> {
    match Serialize(x.entry)
    case Err(err) => Err(err)
    case Ok(d) => Ok(LE32(x.index) + d)
  }

  function ParseClientHello(data: seq<byte>): Result<ClientHello, CodecError> {
    if |data| < 65 then Err(TooShort)
    else Ok(ClientHello(data[0..8], FromLE32(data[8..12]), data[12..28], data[28..36], data[36..52],
                        data[52..60], data[60], FromLE32(data[61..65])))
  }

  function SerializeClientHello(h: ClientHello): (b: seq<byte>)
    ensures |b| == 65
  {
    h.magic + LE32(h.version) + h.sessionID + h.sessionSecret + h.playerID + h.playerName
    + [h.worldID] + LE32(h.walIndex)
  }

  lemma HelloParsesIff(d: seq<byte>)
    ensures ParseClientHello(d).Ok? <==> |d| >= 65
  {
  }

  /** Where each field of a hello is. */
  lemma HelloLayout(h: ClientHello)
    ensures var b := SerializeClientHello(h);
            && b[0..8] == h.magic && b[8..12] == LE32(h.version) && b[12..28] == h.sessionID
            && b[28..36] == h.sessionSecret && b[36..52] == h.playerID && b[52..60] == h.playerName
            && b[60] == h.worldID && b[61..65] == LE32(h.walIndex)
  {
    var b := SerializeClientHello(h);
    assert b[61..65] == LE32(h.walIndex);
  }

  /** Where the index and the entry are. */
  lemma ServerWalLayout(x: ServerWal)
    requires Known(x.entry)
    ensures SerializeServerWal(x).Ok? && |SerializeServerWal(x).value| >= 4
    ensures SerializeServerWal(x).value[0..4] == LE32(x.index)
    ensures Ok(SerializeServerWal(x).value[4..]) == Serialize(x.entry)
  {
    EntryLayout(x.entry);
    assert SerializeServerWal(x).value[0..4] == LE32(x.index);
  }

  /** A log entry crosses the wire with its index and every meaningful field. */
  lemma ServerWalRoundTrip(x: ServerWal)
    requires Known(x.entry)
    ensures SerializeServerWal(x).Ok?
    ensures ParseServerWal(SerializeServerWal(x).value) == Ok(x.(entry := Normal(x.entry)))
  {
    ParseSerializeExact(x.entry);
    var d := SerializeServerWal(x).value;
    assert d[4..] == Serialize(x.entry).value;
    assert d[0..4] == LE32(x.index);
    LE32Inverse(x.index);
  }

  /** The resume index, and all else in the hello, reaches the server as the client sent it. */
  lemma ClientHelloRoundTrip(h: ClientHello)
    ensures ParseClientHello(SerializeClientHello(h)) == Ok(h)
  {
    var d := SerializeClientHello(h);
    assert d[0..8] == h.magic;
    assert d[8..12] == LE32(h.version);
    assert d[12..28] == h.sessionID;
    assert d[28..36] == h.sessionSecret;
    assert d[36..52] == h.playerID;
    assert d[52..60] == h.playerName;
    assert d[61..65] == LE32(h.walIndex);
    LE32Inverse(h.version);
    LE32Inverse(h.walIndex);
  }
}
