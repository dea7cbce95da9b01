/** A player on the server: the handlers that write to the session's log and feed the player from it
    (server/internal/session/session.go). */
module ServerPlayer {
  import opened Bytes
  import opened WalEntry
  import opened Wire
  import opened Packets
  import opened Protocol
  import opened Wal
  import opened Stream
  import W = WalState
  import C = ClientState

  const CLIENT_POSITION_LENGTH: nat := 8

  predicate Passes(pkt: Packet) {
    pkt.op == OP_POSITION && |pkt.data| >= CLIENT_POSITION_LENGTH
  }

  /** A client's position as the other clients get it: whose it is, then the same fields, and two bytes
      that nobody sets. */
  function PositionPacket(id: Bytes16, name: Bytes8, data: seq<byte>): Packet
    requires |data| >= CLIENT_POSITION_LENGTH
  {
    Packet(OP_POSITION, id + name + data[..8] + [0, 0])
  }

  class Player {
    const wal: WAL
    const id: Bytes16
    const name: Bytes8
    var walIndex: uint32
    // The channel that handleMsgOut writes to the connection, in order.
    var out: seq<Packet>

    constructor (wal: WAL, id: Bytes16, name: Bytes8, walIndex: uint32)
      ensures this.wal == wal && this.id == id && this.name == name && this.walIndex == walIndex && out == []
    {
      this.wal, this.id, this.name, this.walIndex, this.out := wal, id, name, walIndex, [];
    }

    /** A packet from the client. An entry is in the log, appended now or earlier, before its key is
        acknowledged; anything that fails ends the connection without an acknowledgement. A position
        goes to every other player of the session whose channel is not full. */
    method HandlePacket(pkt: Packet, io: W.AppendIo, players: set<Player>, full: set<Player>) returns (ok: bool)
      requires wal.Valid()
      modifies wal, wal.file, `out, players`out
      ensures wal.Valid()
      ensures pkt.op == OP_WAL ==>
                match Parse(pkt.data)
                case Err(_) => !ok && wal.View() == old(wal.View()) && out == old(out)
                case Ok(x) =>
                  && wal.View() == W.AppendState(old(wal.View()), x, io)
                  && ok == W.AppendResult(old(wal.View()), x, io).Ok?
                  && (ok ==> Known(x) && KeyOf(x) in wal.keys && out == old(out) + [AckPacket(KeyOf(x))])
                  && (!ok ==> wal.View() == old(wal.View()) && out == old(out))
      ensures pkt.op != OP_WAL ==>
                && wal.View() == old(wal.View()) && out == old(out)
                && ok == (pkt.op == OP_POSITION ==> |pkt.data| >= CLIENT_POSITION_LENGTH)
      ensures forall q <- players :: q != this ==>
                q.out == old(q.out) + if Passes(pkt) && q !in full then [PositionPacket(id, name, pkt.data)] else []
    {
      if pkt.op == OP_WAL {
        var entry := Parse(pkt.data);
        if entry.Err? {
          return false;
        }
        C.ParsedKnown(pkt.data);
        W.AppendKeepsSound(wal.View(), entry.value, io);
        var r := wal.Append(entry.value, io);
        if r.Err? {
          return false;
        }
        out := out + [AckPacket(KeyOf(entry.value))];
        return true;
      } else if pkt.op == OP_POSITION {
        if |pkt.data| < CLIENT_POSITION_LENGTH {
          return false;
        }
        BroadcastExcept(PositionPacket(id, name, pkt.data), players, full);
      }
      return true;
    }

    /** To all players but this one; where the channel is full the packet is lost. */
    method BroadcastExcept(pkt: Packet, players: set<Player>, full: set<Player>)
      modifies players`out
      ensures out == old(out)
      ensures forall q <- players :: q != this ==>
                q.out == old(q.out) + if q !in full then [pkt] else []
    {
      var todo := players - {this};
      while todo != {}
        invariant todo <= players - {this}
        invariant out == old(out)
        invariant forall q <- todo :: q.out == old(q.out)
        invariant forall q <- players - {this} - todo :: q.out == old(q.out) + if q !in full then [pkt] else []
        decreases todo
      {
        var q :| q in todo;
        todo := todo - {q};
        if q !in full {
          q.out := q.out + [pkt];
        }
      }
    }

    /** What handleWalStream does with an entry its stream returned. */
    method SendEntry(x: Indexed)
      requires Known(x.entry)
      modifies `walIndex, `out
      ensures walIndex == if x.index < old(walIndex) then old(walIndex) else Add32(x.index, 1)
      ensures out == old(out) + if x.index < old(walIndex) then [] else [WalPacket(x.index, x.entry)]
    {
      if x.index < walIndex {
        return;
      }
      walIndex := Add32(x.index, 1);
      var body := SerializeServerWal(ServerWal(x.index, x.entry));
      out := out + [Packet(OP_WAL, body.value)];
    }
  }
}
