/** Packets on a connection (shared/protocol/io.go, shared/protocol/opcodes.go). */
module Wire {
  import opened Wrappers
  import opened Bytes
  import opened Sequences
  import opened Framing
  import opened Files

  const OP_WAL: byte := 0x02
  const OP_WAL_ACK: byte := 0x03
  const OP_POSITION: byte := 0x04

  const MAX_DATA: nat := 65535

  datatype Packet = Packet(op: byte, data: seq<byte>)

  /** The errors a receiver sees: io.EOF or io.ErrUnexpectedEOF. */
  datatype RecvError = EndOfStream | UnexpectedEnd

  predicate Fits(p: Packet) {
    |p.data| <= MAX_DATA
  }

  predicate AllFit(ps: seq<Packet>) {
    forall i :: 0 <= i < |ps| ==> Fits(ps[i])
  }

  function PacketFrame(p: Packet): (f: Frame)
    requires Fits(p)
    ensures WellFormed(WirePacket, f)
  {
    LE16Inverse(|p.data|);
    assert (LE16(|p.data|) + [p.op])[0..2] == LE16(|p.data|);
    Frame(LE16(|p.data|) + [p.op], p.data)
  }

  function FromFrame(f: Frame): Packet
    requires |f.header| == 3
  {
    Packet(f.header[2], f.payload)
  }

  function PacketFrames(ps: seq<Packet>): (fs: seq<Frame>)
    requires AllFit(ps)
    ensures |fs| == |ps| && AllWellFormed(WirePacket, fs)
    ensures forall i :: 0 <= i < |ps| ==> fs[i] == PacketFrame(ps[i])
  {
    seq(|ps|, i requires 0 <= i < |ps| => PacketFrame(ps[i]))
  }

  function FromFrames(fs: seq<Frame>): (ps: seq<Packet>)
    requires AllWellFormed(WirePacket, fs)
    ensures |ps| == |fs| && forall i :: 0 <= i < |fs| ==> ps[i] == FromFrame(fs[i])
  {
    seq(|fs|, i requires 0 <= i < |fs| => FromFrame(fs[i]))
  }

  /** The bytes of a sequence of packets sent one after the other. */
  function Stream(ps: seq<Packet>): seq<byte>
    requires AllFit(ps)
  {
    Join(PacketFrames(ps))
  }

  function EndError(end: End): RecvError {
    if end == AtBoundary || end == AfterHeader then EndOfStream else UnexpectedEnd
  }

  /** Everything a receiver gets out of a stream of bytes, and the error that stops it. */
  function Received(b: seq<byte>): (seq<Packet>, RecvError) {
    var s := ScanAll(WirePacket, b);
    ScanSplits(WirePacket, b);
    (FromFrames(s.frames), EndError(s.end))
  }

  // ---- The code ------------------------------------------------------------

  class Conn {
    var incoming: seq<byte>
    var outgoing: seq<byte>

    constructor (incoming: seq<byte>)
      ensures this.incoming == incoming && outgoing == []
    {
      this.incoming, this.outgoing := incoming, [];
    }

    method Write(buf: seq<byte>, fault: Option<nat>) returns (ok: bool)
      modifies this
      ensures incoming == old(incoming)
      ensures outgoing == old(outgoing) + Written(buf, fault)
      ensures ok == fault.None?
    {
      outgoing := outgoing + Written(buf, fault);
      ok := fault.None?;
    }

    method ReadFull(n: nat) returns (r: Read)
      modifies this
      ensures outgoing == old(outgoing)
      ensures r == ReadFullFrom(old(incoming), n)
      ensures incoming == if r.Full? then old(incoming)[n..] else []
    {
      if n <= |incoming| {
        r := Full(incoming[..n]);
        incoming := incoming[n..];
      } else {
        r := if incoming == [] then Eof else UnexpectedEof;
        incoming := [];
      }
    }
  }

  /** Sends one packet, whose frame is laid out in place in a buffer of the right size. Oversized
      data is refused before anything is written. */
  method SendRaw(conn: Conn, pkt: Packet, fault: Option<nat>) returns (ok: bool)
    modifies conn
    ensures ok == (|pkt.data| <= 65535 && fault.None?)
    ensures conn.incoming == old(conn.incoming)
    ensures conn.outgoing == old(conn.outgoing) +
              if |pkt.data| <= 65535 then Written(FrameBytes(PacketFrame(pkt)), fault) else []
  {
    var size := |pkt.data|;
    if size > 65535 {
      assert conn.outgoing + [] == conn.outgoing;
      return false;
    }
    var data := new byte[3 + size](i => 0);
    var header := LE16(size);
    data[0], data[1] := header[0], header[1];
    data[2] := pkt.op;
    for i := 0 to size
      modifies data
      invariant data[..3] == LE16(size) + [pkt.op]
      invariant data[3..3 + i] == pkt.data[..i]
    {
      data[3 + i] := pkt.data[i];
    }
    assert data[..] == data[..3] + data[3..3 + size];
    assert pkt.data[..size] == pkt.data;
    ok := conn.Write(data[..], fault);
  }

  method RecvRaw(conn: Conn) returns (r: Result<Packet, RecvError>)
    modifies conn
    ensures conn.outgoing == old(conn.outgoing)
    ensures match First(WirePacket, old(conn.incoming))
            case Cut(end) => r == Err(EndError(end))
            case Head(f) => r == Ok(FromFrame(f)) && conn.incoming == old(conn.incoming)[|FrameBytes(f)|..]
  {
    ghost var b := conn.incoming;
    var header := conn.ReadFull(3);
    if !header.Full? {
      return Err(if header.Eof? then EndOfStream else UnexpectedEnd);
    }
    var size := FromLE16(header.data[0..2]);
    var data := conn.ReadFull(size);
    if !data.Full? {
      return Err(if data.Eof? then EndOfStream else UnexpectedEnd);
    }
    assert b[3..][..size] == b[3..3 + size];
    assert b[3..][size..] == b[3 + size..];
    return Ok(Packet(header.data[2], data.data));
  }

  /** The receiving pump: hands over packets until the connection fails. */
  method PumpIn(conn: Conn) returns (pkts: seq<Packet>, err: RecvError)
    modifies conn
    ensures (pkts, err) == Received(old(conn.incoming))
  {
    ghost var b := conn.incoming;
    pkts := [];
    assert [] + Received(b).0 == Received(b).0;
    while true
      invariant Received(b) == (pkts + Received(conn.incoming).0, Received(conn.incoming).1)
      decreases |conn.incoming|
    {
      ghost var rest := conn.incoming;
      ReceivedUnfold(rest);
      var r := RecvRaw(conn);
      match r {
        case Err(x) =>
          assert pkts + [] == pkts;
          return pkts, x;
        case Ok(pkt) =>
          Associative(pkts, [pkt], Received(conn.incoming).0);
          pkts := pkts + [pkt];
      }
    }
  }

  // ---- What arrives --------------------------------------------------------

  lemma ReceivedUnfold(b: seq<byte>)
    ensures match First(WirePacket, b)
            case Cut(end) => Received(b) == ([], EndError(end))
            case Head(f) =>
              var rest := Received(b[|FrameBytes(f)|..]);
              Received(b) == ([FromFrame(f)] + rest.0, rest.1)
  {
    match First(WirePacket, b) {
      case Cut(_) =>
      case Head(f) =>
        var rest := b[|FrameBytes(f)|..];
        ScanSplits(WirePacket, rest);
        assert FromFrames([f] + ScanAll(WirePacket, rest).frames)
            == [FromFrame(f)] + FromFrames(ScanAll(WirePacket, rest).frames);
    }
  }

  lemma FrameRoundTrip(ps: seq<Packet>)
    requires AllFit(ps)
    ensures FromFrames(PacketFrames(ps)) == ps
  {
  }

  /** A packet on the wire: its length, its opcode, its data. */
  lemma PacketLayout(p: Packet)
    requires Fits(p)
    ensures var b := FrameBytes(PacketFrame(p));
            && |b| == 3 + |p.data|
            && b[0] == |p.data| % 0x100 && b[1] == |p.data| / 0x100 && b[2] == p.op && b[3..] == p.data
  {
  }

  /** A complete stream delivers exactly the packets that were sent. */
  lemma WholeStream(ps: seq<Packet>)
    requires AllFit(ps)
    ensures Received(Stream(ps)) == (ps, EndOfStream)
  {
    ScanExact(WirePacket, PacketFrames(ps));
    FrameRoundTrip(ps);
  }

  /** A stream cut after any number of bytes delivers the packets that were whole by then, in order
      and unaltered, then an error. The error is io.EOF not only when the cut is clean but also when
      it falls right behind a header, so io.EOF does not prove that no packet was torn. */
  lemma CutStream(ps: seq<Packet>, n: nat)
    requires AllFit(ps)
    requires n <= |Stream(ps)|
    ensures var m := WholeFrames(PacketFrames(ps), n);
            && |Stream(ps[..m])| <= n
            && (m < |ps| ==> n < |Stream(ps[..m + 1])|)
            && Received(Stream(ps)[..n]).0 == ps[..m]
            && (Received(Stream(ps)[..n]).1 == EndOfStream <==>
                  n == |Stream(ps[..m])| || n == |Stream(ps[..m])| + 3)
  {
    var fs := PacketFrames(ps);
    var m := WholeFrames(fs, n);
    ScanCut(WirePacket, fs, n);
    WholeFramesFit(fs, n);
    FramesPrefix(ps, m);
    FrameRoundTrip(ps[..m]);
    if m < |ps| {
      assert Stream(ps[..m + 1]) == Stream(ps[..m]) + FrameBytes(fs[m]) by { StreamSnoc(ps, m); }
    }
  }

  lemma FramesPrefix(ps: seq<Packet>, m: nat)
    requires AllFit(ps) && m <= |ps|
    ensures PacketFrames(ps)[..m] == PacketFrames(ps[..m])
  {
  }

  lemma StreamSnoc(ps: seq<Packet>, m: nat)
    requires AllFit(ps) && m < |ps|
    ensures Stream(ps[..m + 1]) == Stream(ps[..m]) + FrameBytes(PacketFrame(ps[m]))
  {
    assert PacketFrames(ps[..m + 1]) == PacketFrames(ps[..m]) + [PacketFrame(ps[m])];
    JoinSnoc(PacketFrames(ps[..m]), PacketFrame(ps[m]));
  }
}
