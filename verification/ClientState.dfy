/** What the client's handlers do to its log and its send queue: the value-level specification of
    client/internal/game/session.go. */
module ClientState {
  import opened Wrappers
  import opened Bytes
  import opened WalEntry
  import opened Wire
  import opened Packets
  import Ipc
  import W = WalState
  import Q = QueueState

  datatype Identity = Identity(playerID: Bytes16, playerName: Bytes8, worldID: byte)

  datatype Core = Core(wal: W.State, queue: Q.Queue)

  datatype ClientError = BadPacket | BadMessage | UnhandledType | AppendFailed

  /** Shortest body of a server position packet. */
  const POSITION_LENGTH: nat := 34

  // ---- From the server -----------------------------------------------------

  predicate PacketOk(c: Core, pkt: Packet, io: W.AppendIo) {
    if pkt.op == OP_WAL then
      var body := ParseServerWal(pkt.data);
      body.Ok? && W.AppendResult(c.wal, body.value.entry, io).Ok?
    else if pkt.op == OP_WAL_ACK then |pkt.data| == 16
    else if pkt.op == OP_POSITION then |pkt.data| >= POSITION_LENGTH
    else true
  }

  /** A packet that cannot be handled ends the connection and changes nothing. */
  function OnUplinkPacket(c: Core, pkt: Packet, io: W.AppendIo, truncateOk: bool): Core {
    if !PacketOk(c, pkt, io) then c
    else if pkt.op == OP_WAL then
      var e := ParseServerWal(pkt.data).value.entry;
      ParsedKnown(pkt.data[4..]);
      Core(W.AppendState(c.wal, e, io), Q.AckState(c.queue, KeyOf(e), truncateOk))
    else if pkt.op == OP_WAL_ACK then
      c.(queue := Q.AckState(c.queue, pkt.data, truncateOk))
    else c
  }

  /** Handling a packet fails for no other reason than these. */
  lemma PacketFailsIff(c: Core, pkt: Packet, io: W.AppendIo)
    requires W.Sound(c.wal)
    ensures !PacketOk(c, pkt, io) <==>
              || (pkt.op == OP_WAL
                  && (|pkt.data| < 4 || Parse(pkt.data[4..]).Err?
                      || (io != W.Done
                          && forall x <- c.wal.entries :: DedupKey(x) != DedupKey(Parse(pkt.data[4..]).value))))
              || (pkt.op == OP_WAL_ACK && |pkt.data| != 16)
              || (pkt.op == OP_POSITION && |pkt.data| < 34)
  {
    if pkt.op == OP_WAL && |pkt.data| >= 4 && Parse(pkt.data[4..]).Ok? {
      ParsedKnown(pkt.data[4..]);
      W.AppendOutcome(c.wal, Parse(pkt.data[4..]).value, io);
    }
  }

  /** What a packet does to log and queue: a log entry is appended and cleared from the queue, an
      acknowledged key is cleared, and nothing else, nor anything that fails, touches either. */
  lemma PacketEffect(c: Core, pkt: Packet, io: W.AppendIo, truncateOk: bool)
    ensures var d := OnUplinkPacket(c, pkt, io, truncateOk);
            && (!PacketOk(c, pkt, io) || (pkt.op != OP_WAL && pkt.op != OP_WAL_ACK) ==> d == c)
            && (PacketOk(c, pkt, io) && pkt.op == OP_WAL_ACK ==>
                  && |pkt.data| == 16 && d.wal == c.wal && d.queue == Q.AckState(c.queue, pkt.data, truncateOk))
            && (PacketOk(c, pkt, io) && pkt.op == OP_WAL ==>
                  && |pkt.data| >= 4 && Parse(pkt.data[4..]).Ok? && Known(Parse(pkt.data[4..]).value)
                  && var e := Parse(pkt.data[4..]).value;
                     && d.wal == W.AppendState(c.wal, e, io)
                     && d.queue == Q.AckState(c.queue, KeyOf(e), truncateOk))
  {
    hide Parse, W.AppendState, Q.AckState;
    if pkt.op == OP_WAL && |pkt.data| >= 4 && Parse(pkt.data[4..]).Ok? {
      ParsedKnown(pkt.data[4..]);
    }
  }

  lemma ParsedKnown(d: seq<byte>)
    requires Parse(d).Ok?
    ensures Known(Parse(d).value)
  {
  }

  // ---- From the game -------------------------------------------------------

  predicate Renewable(flags: uint16) {
    flags % 2 == 1
  }

  /** The entry a game's report becomes. Only a renewable item gets the random nonce. */
  function EntryFor(me: Identity, w: Ipc.WalIn, nonce: uint32): Result<Entry, ClientError> {
    var base := Entry(w.kind, me.playerID, me.playerName, me.worldID, ZERO_ITEM, 0);
    if w.kind == WAL_ITEM then
      match Ipc.ParseWalItem(w.data)
      case Err(_) => Err(BadMessage)
      case Ok(i) =>
        Ok(base.(item := Item(i.to, i.game, i.gi, i.flags, i.key, if Renewable(i.flags) then nonce else 0)))
    else if w.kind == WAL_EVENT then
      match Ipc.ParseWalEvent(w.data)
      case Err(_) => Err(BadMessage)
      case Ok(id) => Ok(base.(eventID := id))
    else Err(UnhandledType)
  }

  /** What the game gets for its report. */
  function AckMessage(token: uint32): Ipc.Message {
    Ipc.Message(0, Ipc.IPC_WAL_ACK, BE32(token))
  }

  function Enqueue(c: Core, e: Entry, io: Q.AddIo): Core
    requires Known(e)
  {
    c.(queue := Q.AddState(c.queue, KeyOf(e), W.Payload(e), io))
  }

  lemma EntryForNormal(me: Identity, w: Ipc.WalIn, nonce: uint32)
    requires EntryFor(me, w, nonce).Ok?
    ensures IsNormal(EntryFor(me, w, nonce).value)
    ensures EntryFor(me, w, nonce).value.from == me.worldID
  {
  }

  /** A report is refused only if it is neither item nor event, or too short. */
  lemma EntryForIff(me: Identity, w: Ipc.WalIn, nonce: uint32)
    ensures EntryFor(me, w, nonce).Ok? <==>
              (w.kind == WAL_ITEM && |w.data| >= 10) || (w.kind == WAL_EVENT && |w.data| >= 4)
  {
  }

  /** Two reports of the same location by games of the same world, without the renewal flag, get the
      same key whatever their tokens, targets, item numbers, nonces and players. */
  lemma ReportsShareKey(me: Identity, w: Ipc.WalIn, nonce: uint32, me': Identity, w': Ipc.WalIn, nonce': uint32)
    requires EntryFor(me, w, nonce).Ok? && EntryFor(me', w', nonce').Ok?
    requires w.kind == w'.kind == WAL_ITEM && me.worldID == me'.worldID
    requires var i, i' := Ipc.ParseWalItem(w.data).value, Ipc.ParseWalItem(w'.data).value;
             i.game == i'.game && i.key == i'.key && !Renewable(i.flags) && !Renewable(i'.flags)
    ensures KeyOf(EntryFor(me, w, nonce).value) == KeyOf(EntryFor(me', w', nonce').value)
  {
    KeyInjective(EntryFor(me, w, nonce).value, EntryFor(me', w', nonce').value);
  }

  // ---- Back to the game ----------------------------------------------------

  /** The player's own name is blanked; the game needs no notice of its own finds. */
  function ShownName(me: Identity, e: Entry): Bytes8 {
    if e.playerID != me.playerID then e.playerName else [0, 0, 0, 0, 0, 0, 0, 0]
  }

  function GameData(e: Entry): seq<byte> {
    if e.kind == WAL_ITEM then
      Ipc.SerializeWalItem(Ipc.WalItem(e.item.to, e.item.game, e.item.gi, e.item.flags, e.item.key))
    else if e.kind == WAL_EVENT then Ipc.SerializeWalEvent(e.eventID)
    else []
  }

  function GameBody(me: Identity, index: uint32, e: Entry): Ipc.WalOut {
    Ipc.WalOut(index, e.kind, e.from, ShownName(me, e), GameData(e))
  }

  function GameMessage(me: Identity, index: uint32, e: Entry): Ipc.Message {
    Ipc.Message(0, Ipc.IPC_WAL, Ipc.SerializeWalOut(GameBody(me, index, e)))
  }

  /** The message the game gets determines the index, the sender and all the entry means to it. The
      name is there exactly if the find is another player's. */
  lemma GameMessageFaithful(me: Identity, index: uint32, e: Entry)
    requires Known(e)
    ensures var m := GameMessage(me, index, e);
            var b := Ipc.ReadWalOut(m.payload);
            && m.op == Ipc.IPC_WAL
            && b.index == index && b.kind == e.kind && b.from == e.from
            && (e.playerID != me.playerID ==> b.playerName == e.playerName)
            && (e.playerID == me.playerID ==> forall j :: 0 <= j < 8 ==> b.playerName[j] == 0)
            && (e.kind == WAL_ITEM ==>
                  Ipc.ParseWalItem(b.data)
                  == Ok(Ipc.WalItem(e.item.to, e.item.game, e.item.gi, e.item.flags, e.item.key)))
            && (e.kind == WAL_EVENT ==> Ipc.ParseWalEvent(b.data) == Ok(e.eventID))
  {
    Ipc.WalOutRoundTrip(GameBody(me, index, e));
    var d := GameData(e);
    assert d + [] == d;
    if e.kind == WAL_ITEM {
      Ipc.WalItemRoundTrip(Ipc.WalItem(e.item.to, e.item.game, e.item.gi, e.item.flags, e.item.key), []);
    } else {
      Ipc.WalEventRoundTrip(e.eventID, []);
    }
  }

  // ---- From one game to another --------------------------------------------

  /** The entry is what this player reports, and what a game of any player, `other`, is told of it. */
  predicate TellsFrom(me: Identity, e: Entry, other: Identity, index: uint32)
    requires Known(e)
  {
    var m := GameMessage(other, index, e);
    |m.payload| >= 14 && var b := Ipc.ReadWalOut(m.payload);
      && IsNormal(e) && e.playerID == me.playerID && e.playerName == me.playerName && e.from == me.worldID
      && m.op == Ipc.IPC_WAL && b.index == index && b.kind == e.kind && b.from == me.worldID
      && (me.playerID != other.playerID ==> b.playerName == me.playerName)
      && (me.playerID == other.playerID ==> forall j :: 0 <= j < 8 ==> b.playerName[j] == 0)
  }

  /** Whatever item a game reports, in whatever world, whatever bytes follow: every other game is told of
      exactly that item, with the world it was found in and the name of the finder. The entry has the
      drawn nonce exactly if the item is renewable. */
  lemma ItemEndToEnd(me: Identity, i: Ipc.WalItem, rest: seq<byte>, token: uint32, nonce: uint32,
                     other: Identity, index: uint32)
    ensures var w := Ipc.ParseWalIn(BE32(token) + [WAL_ITEM] + (Ipc.SerializeWalItem(i) + rest));
            && w.Ok? && w.value.token == token && EntryFor(me, w.value, nonce).Ok?
            && var e := EntryFor(me, w.value, nonce).value;
               && e.kind == WAL_ITEM && Known(e) && TellsFrom(me, e, other, index)
               && Ipc.ParseWalItem(Ipc.ReadWalOut(GameMessage(other, index, e).payload).data) == Ok(i)
               && e.item.nonce == if i.flags % 2 == 1 then nonce else 0
  {
    var data := Ipc.SerializeWalItem(i) + rest;
    Ipc.ReportLayout(token, WAL_ITEM, data);
    Ipc.WalItemRoundTrip(i, rest);
    var w := Ipc.WalIn(token, WAL_ITEM, data);
    GameMessageFaithful(other, index, EntryFor(me, w, nonce).value);
  }

  lemma EventEndToEnd(me: Identity, id: uint32, rest: seq<byte>, token: uint32, nonce: uint32,
                      other: Identity, index: uint32)
    ensures var w := Ipc.ParseWalIn(BE32(token) + [WAL_EVENT] + (Ipc.SerializeWalEvent(id) + rest));
            && w.Ok? && w.value.token == token && EntryFor(me, w.value, nonce).Ok?
            && var e := EntryFor(me, w.value, nonce).value;
               && e.kind == WAL_EVENT && Known(e) && TellsFrom(me, e, other, index) && e.eventID == id
               && Ipc.ParseWalEvent(Ipc.ReadWalOut(GameMessage(other, index, e).payload).data) == Ok(id)
  {
    var data := Ipc.SerializeWalEvent(id) + rest;
    Ipc.ReportLayout(token, WAL_EVENT, data);
    Ipc.WalEventRoundTrip(id, rest);
    var w := Ipc.WalIn(token, WAL_EVENT, data);
    GameMessageFaithful(other, index, EntryFor(me, w, nonce).value);
  }

  /** The acknowledgement names the token of the report. */
  lemma AckNamesToken(token: uint32)
    ensures var m := AckMessage(token);
            m.op == Ipc.IPC_WAL_ACK && |m.payload| == 4 && FromBE32(m.payload) == token
  {
    BE32Inverse(token);
  }
}
