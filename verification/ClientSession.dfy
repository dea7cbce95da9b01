/** The client session object and its handlers (client/internal/game/session.go), proved against
    ClientState, whose functions are the steps of the protocol. */
module ClientSession {
  import opened Wrappers
  import opened Bytes
  import opened WalEntry
  import opened Wire
  import opened Packets
  import opened ClientState
  import opened Wal
  import opened SendQueue
  import opened Paging
  import opened Positions
  import P = PositionState
  import Ipc
  import W = WalState
  import Q = QueueState


  /** The shortest body handled of the messages that change neither the log nor the queue. */
  function ShortestBody(op: byte): nat {
    if op == Ipc.IPC_POSITION then 8
    else if op == Ipc.IPC_INFO_ITEM then 7
    else if op == Ipc.IPC_INFO_ENTRANCE then 9
    else 0
  }

  function GameMessages(me: Identity, index: nat, es: seq<Entry>): seq<Ipc.Message>
    requires index + |es| <= UINT32_MODULUS
  {
    seq(|es|, k requires 0 <= k < |es| => GameMessage(me, index + k, es[k]))
  }

  /** What becomes of the session after a message of the game: it goes on, it ends, or the process
      dies of an index out of range. */
  datatype Outcome = Handled | Ended | Crashed

  predicate Moves(pkt: Packet) {
    pkt.op == OP_POSITION && |pkt.data| >= POSITION_LENGTH
  }

  /** Two bytes the other way round: what was little-endian is big-endian. */
  function Swapped(b: seq<byte>): seq<byte>
    requires |b| == 2
  {
    BE16(FromLE16(b))
  }

  /** What the game is told of another player's position: local id, colour, name, key and place. */
  function PositionMessage(localID: uint16, data: seq<byte>): Ipc.Message
    requires |data| >= POSITION_LENGTH
  {
    Ipc.Message(0, Ipc.IPC_POSITION, BE16(localID) + data[0..2] + data[16..24] + Swapped(data[24..26])
                                 + Swapped(data[26..28]) + Swapped(data[28..30]) + Swapped(data[30..32]))
  }

  /** Names of things of the game; a name that is not known is the empty one. */
  datatype Info = Info(items: map<uint16, string>, locations: map<uint32, string>, entrances: map<uint32, string>)

  /** What the local daemon is told. */
  datatype Notice =
    | ItemNotice(item: string, location: string, own: bool)
    | EntranceNotice(entrance: string, original: string, age: string)

  function NameIn<T(==)>(names: map<T, string>, id: T): string {
    if id in names then names[id] else ""
  }

  function EntranceName(info: Info, id: uint32): string {
    if id == 0xffff_ffff then ""
    else if NameIn(info.entrances, id) == "" then "UNKNOWN"
    else NameIn(info.entrances, id)
  }

  function AgeName(age: byte): string {
    if age == 0 then "ADULT" else if age == 1 then "CHILD" else "UNKNOWN"
  }

  function NoticeOf(info: Info, msg: Ipc.Message): seq<Notice> {
    if msg.op == Ipc.IPC_INFO_ITEM && |msg.payload| >= 7 then
      [ItemNotice(NameIn(info.items, FromBE16(msg.payload[4..6])),
                  NameIn(info.locations, FromBE32(msg.payload[0..4])), msg.payload[6] % 2 == 1)]
    else if msg.op == Ipc.IPC_INFO_ENTRANCE && |msg.payload| >= 9 then
      [EntranceNotice(EntranceName(info, FromBE32(msg.payload[4..8])),
                      EntranceName(info, FromBE32(msg.payload[0..4])), AgeName(msg.payload[8]))]
    else []
  }

  function PlaceOf(body: seq<byte>): Place
    requires |body| >= 8
  {
    Place(FromBE16(body[0..2]), FromBE16(body[2..4]), FromBE16(body[4..6]), FromBE16(body[6..8]))
  }

  class Session {
    const me: Identity
    const wal: WAL
    const sendQ: SendQueue
    const positions: PositionSystem
    const info: Info
    // The channels to the uplink and to the game.
    var uplinkOut: seq<Packet>
    var msgOut: seq<Ipc.Message>
    var daemonOut: seq<Notice>
    var seqGame: uint32

    ghost predicate Valid()
      reads this, wal, wal.file
    {
      wal.Valid() && |wal.entries| < UINT32_MODULUS && wal.file != sendQ.file
    }

    ghost function View(): Core
      reads this, wal, wal.file, sendQ, sendQ.file
    {
      Core(wal.View(), sendQ.View())
    }

    constructor (me: Identity, wal: WAL, sendQ: SendQueue, positions: PositionSystem, info: Info,
                 seqGame: uint32)
      requires wal.Valid() && |wal.entries| < UINT32_MODULUS && wal.file != sendQ.file
      ensures Valid() && this.me == me && this.wal == wal && this.sendQ == sendQ && this.seqGame == seqGame
      ensures this.positions == positions && this.info == info
      ensures uplinkOut == [] && msgOut == [] && daemonOut == []
    {
      this.me, this.wal, this.sendQ, this.positions, this.seqGame := me, wal, sendQ, positions, seqGame;
      this.info, uplinkOut, msgOut, daemonOut := info, [], [], [];
    }

    /** A packet from the server. A log entry is appended before the queue is cleared of it; of a
        position the game is told if its channel has room. */
    method HandleUplinkPacket(pkt: Packet, io: W.AppendIo, truncateOk: bool, room: bool) returns (ok: bool)
      requires Valid() && |wal.entries| < UINT32_MODULUS - 1
      modifies wal, wal.file, sendQ, sendQ.file, positions`local, positions`localIdFree, positions`localIdNext, `msgOut
      ensures Valid()
      ensures View() == OnUplinkPacket(old(View()), pkt, io, truncateOk)
      ensures ok == PacketOk(old(View()), pkt, io)
      ensures !Moves(pkt) ==> positions.View() == old(positions.View()) && msgOut == old(msgOut)
      ensures Moves(pkt) ==>
                var id, name := pkt.data[0..16], pkt.data[16..24];
                && positions.View() == P.OnPosition(old(positions.View()), id, name)
                && id in positions.local
                && msgOut == old(msgOut) +
                     if room then [PositionMessage(positions.local[id].localID, pkt.data)] else []
    {
      hide P.OnPosition, PositionMessage;
      if pkt.op == OP_WAL {
        var body := ParseServerWal(pkt.data);
        if body.Err? {
          return false;
        }
        var entry := body.value.entry;
        ParsedKnown(pkt.data[4..]);
        var r := wal.Append(entry, io);
        if r.Err? {
          return false;
        }
        sendQ.Ack(KeyOf(entry), truncateOk);
        return true;
      } else if pkt.op == OP_WAL_ACK {
        if |pkt.data| != 16 {
          return false;
        }
        sendQ.Ack(pkt.data, truncateOk);
        return true;
      } else if pkt.op == OP_POSITION {
        if |pkt.data| < POSITION_LENGTH {
          return false;
        }
        PassPosition(pkt.data, room);
      }
      return true;
    }

    method PassPosition(data: seq<byte>, room: bool)
      requires |data| >= POSITION_LENGTH
      modifies positions`local, positions`localIdFree, positions`localIdNext, `msgOut
      ensures positions.View() == P.OnPosition(old(positions.View()), data[0..16], data[16..24])
      ensures data[0..16] in positions.local
      ensures msgOut == old(msgOut) +
                if room then [PositionMessage(positions.local[data[0..16]].localID, data)] else []
    {
      hide P.OnPosition, PositionMessage;
      var localID := positions.OnServerPos(data[0..16], data[16..24]);
      if room {
        msgOut := msgOut + [PositionMessage(localID, data)];
      }
    }

    /** Queues an entry and, if the channel has room, sends it at once. */
    method NewWalEntry(e: Entry, io: Q.AddIo, room: bool) returns (r: Result<(), ClientError>)
      requires Valid()
      modifies sendQ, sendQ.file, `uplinkOut
      ensures Valid()
      ensures r.Ok? <==> Known(e)
      ensures r.Err? ==> View() == old(View()) && uplinkOut == old(uplinkOut)
      ensures r.Ok? ==> View() == Enqueue(old(View()), e, io)
      ensures r.Ok? ==> uplinkOut == old(uplinkOut) + if room then [Packet(OP_WAL, W.Payload(e))] else []
    {
      if !Known(e) {
        return Err(UnhandledType);
      }
      var data := W.Payload(e);
      var added := sendQ.Add(KeyOf(e), data, io);
      if room {
        uplinkOut := uplinkOut + [Packet(OP_WAL, data)];
      }
      return Ok(());
    }

    /** A report from the game. It is acknowledged whether or not the entry reached the queue. */
    method HandleWalIn(w: Ipc.WalIn, nonce: uint32, io: Q.AddIo, room: bool) returns (r: Result<(), ClientError>)
      requires Valid()
      modifies sendQ, sendQ.file, `uplinkOut, `msgOut
      ensures Valid()
      ensures match EntryFor(me, w, nonce)
              case Err(x) =>
                r == Err(x) && View() == old(View()) && uplinkOut == old(uplinkOut) && msgOut == old(msgOut)
              case Ok(e) =>
                && r.Ok? && Known(e) && View() == Enqueue(old(View()), e, io)
                && uplinkOut == old(uplinkOut) + (if room then [Packet(OP_WAL, W.Payload(e))] else [])
                && msgOut == old(msgOut) + [AckMessage(w.token)]
    {
      var entry := Entry(w.kind, me.playerID, me.playerName, me.worldID, ZERO_ITEM, 0);
      if w.kind == WAL_ITEM {
        var item := Ipc.ParseWalItem(w.data);
        if item.Err? {
          return Err(BadMessage);
        }
        var i := item.value;
        entry := entry.(item := Item(i.to, i.game, i.gi, i.flags, i.key, 0));
        if i.flags % 2 != 0 {
          entry := entry.(item := entry.item.(nonce := nonce));
        }
      } else if w.kind == WAL_EVENT {
        var event := Ipc.ParseWalEvent(w.data);
        if event.Err? {
          return Err(BadMessage);
        }
        entry := entry.(eventID := event.value);
      } else {
        return Err(UnhandledType);
      }
      r := NewWalEntry(entry, io, room);
      if r.Err? {
        return;
      }
      msgOut := msgOut + [AckMessage(w.token)];
    }

    /** Answers a query of the game: the page of the log that starts at `index`. */
    method SendGameWal(index: uint32)
      requires Valid()
      modifies `msgOut
      ensures msgOut == old(msgOut) + GameMessages(me, index, Batch(wal.entries, index))
    {
      hide GameMessage, GameMessages, Batch;
      var i := 0;
      ghost var batch := Batch(wal.entries, index);
      NoMessages(me, index);
      assert batch[..0] == [];
      while i < 16
        invariant 0 <= i <= 16 && i <= |batch|
        invariant msgOut == old(msgOut) + GameMessages(me, index, batch[..i])
      {
        BatchAt(wal.entries, index, i);
        var entry := wal.Get(Add32(index, i));
        if entry.None? {
          assert batch[..i] == batch;
          return;
        }
        MessagesSnoc(me, index, batch, i);
        msgOut := msgOut + [GameMessage(me, Add32(index, i), entry.value)];
        i := i + 1;
      }
      assert batch[..16] == batch;
    }

    /** An item info of exactly 6 bytes passes the check of its length and is then read at index 6. */
    predicate Crashes(expected: uint32, msg: Ipc.Message) {
      msg.op == Ipc.IPC_INFO_ITEM && msg.seqNo == expected && |msg.payload| == 6
    }

    /** The messages that do not end the session: in sequence, not a second hello, and well formed. */
    predicate Accepted(expected: uint32, msg: Ipc.Message, nonce: uint32) {
      && msg.op != Ipc.IPC_HELLO && msg.seqNo == expected
      && (msg.op == Ipc.IPC_WAL ==>
            Ipc.ParseWalIn(msg.payload).Ok? && EntryFor(me, Ipc.ParseWalIn(msg.payload).value, nonce).Ok?)
      && (msg.op == Ipc.IPC_WAL_QUERY ==> |msg.payload| >= 4)
      && |msg.payload| >= ShortestBody(msg.op)
    }

    /** A message of the game, which numbers all but its hello one after the other. */
    method HandleMsg(msg: Ipc.Message, nonce: uint32, io: Q.AddIo, room: bool) returns (r: Outcome)
      requires Valid()
      modifies sendQ, sendQ.file, positions`pos, `uplinkOut, `msgOut, `daemonOut, `seqGame
      ensures Valid()
      ensures seqGame == if msg.op == Ipc.IPC_HELLO then old(seqGame) else Add32(old(seqGame), 1)
      ensures r == if Crashes(old(seqGame), msg) then Crashed
                   else if Accepted(old(seqGame), msg, nonce) then Handled else Ended
      ensures !r.Handled? ==> View() == old(View()) && uplinkOut == old(uplinkOut) && msgOut == old(msgOut)
      ensures daemonOut == old(daemonOut) + if r.Handled? then NoticeOf(info, msg) else []
      ensures positions.pos == if r.Handled? && msg.op == Ipc.IPC_POSITION && |msg.payload| >= 8
                               then PlaceOf(msg.payload) else old(positions.pos)
      ensures r.Handled? && msg.op == Ipc.IPC_WAL ==>
                var w := Ipc.ParseWalIn(msg.payload);
                && w.Ok? && EntryFor(me, w.value, nonce).Ok? && Known(EntryFor(me, w.value, nonce).value)
                && View() == Enqueue(old(View()), EntryFor(me, w.value, nonce).value, io)
                && msgOut == old(msgOut) + [AckMessage(w.value.token)]
      ensures r.Handled? && msg.op == Ipc.IPC_WAL_QUERY ==>
                && |msg.payload| >= 4 && View() == old(View())
                && msgOut == old(msgOut) + GameMessages(me, FromBE32(msg.payload[..4]),
                                                        Batch(wal.entries, FromBE32(msg.payload[..4])))
      ensures r.Handled? && msg.op != Ipc.IPC_WAL && msg.op != Ipc.IPC_WAL_QUERY ==>
                && |msg.payload| >= ShortestBody(msg.op)
                && View() == old(View()) && uplinkOut == old(uplinkOut) && msgOut == old(msgOut)
    {
      hide EntryFor, GameMessages, Batch, Q.AddState, W.Payload;
      var expectedSeq: uint32 := 0;
      if msg.op != Ipc.IPC_HELLO {
        expectedSeq := seqGame;
        seqGame := Add32(seqGame, 1);
      }
      if msg.seqNo != expectedSeq || msg.op == Ipc.IPC_HELLO {
        return Ended;
      }
      if msg.op == Ipc.IPC_WAL {
        var w := Ipc.ParseWalIn(msg.payload);
        if w.Err? {
          return Ended;
        }
        var done := HandleWalIn(w.value, nonce, io, room);
        return if done.Ok? then Handled else Ended;
      } else if msg.op == Ipc.IPC_WAL_QUERY {
        if |msg.payload| < 4 {
          return Ended;
        }
        SendGameWal(FromBE32(msg.payload[..4]));
        return Handled;
      }
      if msg.op == Ipc.IPC_INFO_ITEM && |msg.payload| == 6 {
        return Crashed;
      }
      if |msg.payload| < ShortestBody(msg.op) {
        return Ended;
      }
      if msg.op == Ipc.IPC_POSITION {
        positions.OnGamePos(PlaceOf(msg.payload));
      }
      daemonOut := daemonOut + NoticeOf(info, msg);
      return Handled;
    }
  }

  /** Each message of a page names the place of its entry in the log. */
  lemma MessageAt(me: Identity, index: uint32, log: seq<Entry>, k: nat)
    requires |log| < UINT32_MODULUS && k < |Batch(log, index)|
    ensures |GameMessages(me, index, Batch(log, index))| == |Batch(log, index)|
    ensures index + k < |log|
    ensures GameMessages(me, index, Batch(log, index))[k] == GameMessage(me, index + k, log[index + k])
  {
    hide GameMessage;
    BatchAt(log, index, k);
  }

  /** The daemon is told of the item and the place by name, and whose it is. */
  lemma ItemNoticeSays(info: Info, seqNo: uint32, key: uint32, gi: uint16, flags: byte, rest: seq<byte>)
    ensures var msg := Ipc.Message(seqNo, Ipc.IPC_INFO_ITEM, BE32(key) + BE16(gi) + [flags] + rest);
            NoticeOf(info, msg)
            == [ItemNotice(if gi in info.items then info.items[gi] else "",
                           if key in info.locations then info.locations[key] else "", flags % 2 == 1)]
  {
    var d := BE32(key) + BE16(gi) + [flags] + rest;
    assert d[0..4] == BE32(key) && d[4..6] == BE16(gi) && d[6] == flags;
    BE32Inverse(key);
  }

  lemma EntranceNoticeSays(info: Info, seqNo: uint32, original: uint32, entrance: uint32, age: byte, rest: seq<byte>)
    ensures var msg := Ipc.Message(seqNo, Ipc.IPC_INFO_ENTRANCE, BE32(original) + BE32(entrance) + [age] + rest);
            var name := (x: uint32) => if x == 0xffff_ffff then ""
                                       else if x in info.entrances && info.entrances[x] != "" then info.entrances[x]
                                       else "UNKNOWN";
            NoticeOf(info, msg)
            == [EntranceNotice(name(entrance), name(original),
                               if age == 0 then "ADULT" else if age == 1 then "CHILD" else "UNKNOWN")]
  {
    var d := BE32(original) + BE32(entrance) + [age] + rest;
    assert d[0..4] == BE32(original) && d[4..8] == BE32(entrance) && d[8] == age;
    BE32Inverse(original);
    BE32Inverse(entrance);
  }

  lemma NoMessages(me: Identity, index: uint32)
    ensures GameMessages(me, index, []) == []
  {
  }

  lemma MessagesSnoc(me: Identity, index: nat, es: seq<Entry>, i: nat)
    requires index + |es| <= UINT32_MODULUS && i < |es|
    ensures GameMessages(me, index, es[..i + 1])
         == GameMessages(me, index, es[..i]) + [GameMessage(me, index + i, es[i])]
  {
  }
}
