/** The whole system as a transition system: one server session and any number of clients, each with
    its files, its connections and its game. A step that is not possible in a state leaves the state
    as it is, so a run is any sequence of steps.

    A client's link to the server is modelled per connection, numbered by `epoch`. Downwards it is a
    queue of packets: the player's `out` channel, the connection and the client's `uplinkIn` channel
    in a row. Upwards it is the set of all that was ever sent on a connection, from which the server
    takes packets in any order, any number of times or never, even after the client has moved on to
    another connection. */
module Protocol {
  import opened Wrappers
  import opened Bytes
  import opened WalEntry
  import opened Wire
  import opened Packets
  import opened ClientState
  import Ipc
  import W = WalState
  import Q = QueueState

  datatype Peer = Peer(
    me: Identity,
    running: bool,
    // Log and send queue: the files, and while the client runs, what it holds in memory.
    core: Core,
    walTorn: bool,
    // No write to the queue file has been torn since it was last truncated or read.
    clean: bool,
    // Entries the resend loop has taken from the queue, and what is in the uplinkOut channel.
    resend: set<seq<byte>>,
    outbox: set<seq<byte>>,
    // The client's connection.
    epoch: nat,
    up: bool,
    down: seq<Packet>,
    uplink: set<(nat, seq<byte>)>,
    // The server's side: hellos not yet answered, and the WalIndex of each player.
    hellos: map<nat, seq<byte>>,
    players: map<nat, uint32>,
    // Keys the server has appended, or found present, for a connection and not acknowledged on it yet.
    owed: set<(nat, Key)>,
    // What the client has handed over for its game.
    toGame: seq<Ipc.Message>,
    // What happened so far. Keys whose Add returned nil; those of them whose entry is not in the queue
    // for all that, because a start on a queue file with a torn record inside did not find it, or
    // because Add found something else under its key; and whatever such a start did find.
    accepted: set<Key>,
    dropped: set<Key>,
    salvaged: set<seq<byte>>,
    // Unless the queue file is clean: what was in it before the first torn write, and the keys that
    // were accepted and not dropped by then.
    whole: seq<byte>,
    early: set<Key>)

  /** `torn`: the server died while writing a record, and its file no longer loads. */
  datatype World = World(wal: W.State, open: bool, torn: bool, peers: map<nat, Peer>, reported: set<Entry>)

  const INIT := World(W.EMPTY, false, false, map[], {})

  datatype Step =
    | Join(c: nat, me: Identity)
    | Start(c: nat, me: Identity)
    | Stop(c: nat)
    | GameWal(c: nat, payload: seq<byte>, nonce: uint32, addIo: Q.AddIo, room: bool)
    | TakePending(c: nat)
    | Resend(c: nat, data: seq<byte>)
    | Dial(c: nat)
    | PumpOut(c: nat, data: seq<byte>)
    | Accept(c: nat, e: nat)
    | ServerRecv(c: nat, e: nat, data: seq<byte>, io: W.AppendIo)
    | AckOut(c: nat, e: nat, key: Key)
    | StreamOut(c: nat, e: nat)
    | OtherOut(c: nat, e: nat, pkt: Packet)
    | ServerDrop(c: nat, e: nat, survive: nat)
    | Deliver(c: nat, io: W.AppendIo, truncateOk: bool)
    | Disconnect(c: nat)
    | ClientCrash(c: nat, written: nat)
    | ServerCrash(c: nat, e: nat, data: seq<byte>, written: nat)

  // ---- The entry under a key -----------------------------------------------

  /** These bytes can be sent, and the server will compute this key for them. */
  predicate Carries(data: seq<byte>, key: Key) {
    |data| <= MAX_DATA && Parse(data).Ok? && DedupKey(Parse(data).value) == Ok(key)
  }

  /** Under the key is an entry of that key, and not what a misaligned file was taken for. */
  predicate Held(m: Q.Live, key: Key) {
    key in m && Carries(m[key], key)
  }

  // ---- A client ------------------------------------------------------------

  function NewPeer(me: Identity): Peer {
    Peer(me, true, Core(W.EMPTY, Q.EMPTY), false, true, {}, {}, 0, false, [], {}, map[], map[], {}, [],
         {}, {}, {}, [], {})
  }

  function Disconnected(p: Peer): Peer {
    p.(up := false, down := [])
  }

  function Stopped(p: Peer): Peer {
    Disconnected(p).(running := false, resend := {}, outbox := {})
  }

  /** A start on a queue file that a torn write has left misaligned may find less than was accepted,
      and may find what nobody wrote. */
  function Restarted(p: Peer, me: Identity, core: Core): Peer {
    var q := p.(me := me, running := true, core := core, clean := true);
    if p.clean then q
    else q.(dropped := p.dropped + (set k | k in p.accepted && !Held(core.queue.live, k)),
            salvaged := p.salvaged + core.queue.live.Values)
  }

  /** Both files are read back; if either does not load, the client does not start. The files are those
      of the session, whichever player of it is at the game this time. */
  function Started(p: Peer, me: Identity): Peer {
    var wal, queue := W.Open(p.core.wal.file), Q.Open(p.core.queue.file);
    if p.running || wal.Err? || queue.Err? then p
    else Restarted(p, me, Core(wal.value, queue.value))
  }

  /** The game reports an entry. Whatever becomes of the queue write, the game gets its ack. */
  function Reported(p: Peer, token: uint32, e: Entry, io: Q.AddIo, room: bool): Peer
    requires Known(e)
  {
    var key, data := KeyOf(e), W.Payload(e);
    var tears := p.clean && !Q.Untorn(p.core.queue, key, data, io);
    p.(core := Enqueue(p.core, e, io),
       clean := p.clean && !tears,
       whole := if tears then p.core.queue.file else p.whole,
       early := if tears then p.accepted - p.dropped else p.early,
       accepted := if Q.AddOk(p.core.queue, key, io) then p.accepted + {key} else p.accepted,
       dropped := if !Q.AddOk(p.core.queue, key, io) then p.dropped
                  else if Held(Enqueue(p.core, e, io).queue.live, key) then p.dropped - {key}
                  else p.dropped + {key},
       outbox := if room then p.outbox + {data} else p.outbox,
       toGame := p.toGame + [AckMessage(token)])
  }

  function TookPending(p: Peer): Peer {
    p.(resend := set k | k in p.core.queue.live :: p.core.queue.live[k])
  }

  /** The resend loop stops the session when an entry does not parse. */
  function Resent(p: Peer, data: seq<byte>): Peer {
    if Parse(data).Err? then Stopped(p) else p.(outbox := p.outbox + {data})
  }

  function Hello(p: Peer): ClientHello {
    ClientHello([0x4f, 0x6f, 0x54, 0x4d, 0x4d, 0x7f, 0x01, 0x00], 0x0001_0000, Zeros(16), Zeros(8),
                p.me.playerID, p.me.playerName, p.me.worldID, p.core.wal.count)
  }

  /** A new connection: both channels are drained, then the hello names the index to resume at. */
  function Dialed(p: Peer): Peer {
    p.(epoch := p.epoch + 1, up := true, down := [], outbox := {},
       hellos := p.hellos[p.epoch + 1 := SerializeClientHello(Hello(p))])
  }

  /** A packet too large to send ends the connection. */
  function Pumped(p: Peer, data: seq<byte>): Peer {
    if !Fits(Packet(OP_WAL, data)) then Disconnected(p) else p.(uplink := p.uplink + {(p.epoch, data)})
  }

  /** The client handles the packet in front; one it cannot handle ends the connection. */
  function Delivered(p: Peer, io: W.AppendIo, truncateOk: bool): Peer
    requires p.down != []
  {
    if !PacketOk(p.core, p.down[0], io) then Disconnected(p)
    else
      var core := OnUplinkPacket(p.core, p.down[0], io, truncateOk);
      p.(core := core, down := p.down[1..], clean := p.clean || core.queue.file == [])
  }

  /** A log whose process dies after writing some bytes of the record of `e`. */
  function TornAppend(s: W.State, e: Entry, written: nat): (W.State, bool)
    requires Known(e)
  {
    var r := W.Record(e);
    if KeyOf(e) in s.keys || written == 0 then (s, false)
    else if written >= |r| then (W.Appended(s, e), false)
    else (s.(file := s.file + r[..written]), true)
  }

  /** What a crash while handling the packet in front leaves of the log. */
  function CrashedWal(p: Peer, written: nat): (W.State, bool) {
    var body := if p.down != [] && p.down[0].op == OP_WAL then ParseServerWal(p.down[0].data) else Err(TooShort);
    if body.Err? then (p.core.wal, p.walTorn)
    else
      ParsedKnown(p.down[0].data[4..]);
      TornAppend(p.core.wal, body.value.entry, written)
  }

  /** The client dies while handling the packet in front. */
  function Crashed(p: Peer, written: nat): Peer {
    var (wal, torn) := CrashedWal(p, written);
    Stopped(p.(core := p.core.(wal := wal), walTorn := torn))
  }

  // ---- The server's side of a client's connections --------------------------

  /** What the server sends on connection `e` reaches the client only while that is its connection. */
  function Sent(p: Peer, e: nat, pkt: Packet): Peer {
    if p.up && p.epoch == e then p.(down := p.down + [pkt]) else p
  }

  function Greeted(p: Peer, e: nat, walIndex: uint32): Peer {
    p.(hellos := p.hellos - {e}, players := p.players[e := walIndex])
  }

  function Refused(p: Peer, e: nat): Peer {
    p.(hellos := p.hellos - {e})
  }

  function AckPacket(key: Key): Packet {
    Packet(OP_WAL_ACK, key)
  }

  function WalPacket(index: uint32, e: Entry): Packet
    requires Known(e)
  {
    Packet(OP_WAL, LE32(index) + W.Payload(e))
  }

  /** handlePacket, once the entry is in the log. */
  function Owing(p: Peer, e: nat, key: Key): Peer {
    p.(owed := p.owed + {(e, key)})
  }

  /** handlePacket goes on to put the acknowledgement into the player's channel. In between,
      handleWalStream may have put the entry itself there. */
  function Acked(p: Peer, e: nat, key: Key): Peer {
    Sent(p, e, AckPacket(key)).(owed := p.owed - {(e, key)})
  }

  function Streamed(p: Peer, e: nat, x: Entry): Peer
    requires e in p.players && Known(x)
  {
    Sent(p, e, WalPacket(p.players[e], x)).(players := p.players[e := Add32(p.players[e], 1)])
  }

  /** The server's side of a connection ends; of what it had sent, some packets may still arrive. */
  function Dropped(p: Peer, e: nat, survive: nat): Peer {
    var q := p.(players := p.players - {e}, owed := set x | x in p.owed && x.0 != e);
    if p.up && p.epoch == e && survive < |p.down| then q.(down := p.down[..survive]) else q
  }

  function ServerGone(p: Peer): Peer {
    p.(players := map[], hellos := map[], owed := {})
  }

  // ---- The system ----------------------------------------------------------

  function Put(w: World, c: nat, p: Peer): World {
    w.(peers := w.peers[c := p])
  }

  predicate SomeonePlays(peers: map<nat, Peer>) {
    exists c :: c in peers && |peers[c].players| > 0
  }

  /** The session is closed when its last player has left. */
  function CloseIfEmpty(w: World): World {
    if SomeonePlays(w.peers) then w else w.(open := false)
  }

  function DropPlayer(w: World, c: nat, e: nat, survive: nat): World
    requires c in w.peers
  {
    CloseIfEmpty(Put(w, c, Dropped(w.peers[c], e, survive)))
  }

  predicate HasRoom(s: W.State) {
    |s.entries| < UINT32_MODULUS - 1
  }

  function DoGameWal(w: World, c: nat, payload: seq<byte>, nonce: uint32, io: Q.AddIo, room: bool): World
    requires c in w.peers
  {
    var p := w.peers[c];
    var msg := Ipc.ParseWalIn(payload);
    if !p.running || msg.Err? then w
    else
      match EntryFor(p.me, msg.value, nonce)
      case Err(_) => w
      case Ok(e) => Put(w, c, Reported(p, msg.value.token, e, io, room)).(reported := w.reported + {e})
  }

  /** A hello opens the session if it is not open; if its file does not load the client is refused. */
  function DoAccept(w: World, c: nat, e: nat): World
    requires c in w.peers
  {
    var p := w.peers[c];
    if e !in p.hellos then w
    else
      var hello, file := ParseClientHello(p.hellos[e]), W.Open(w.wal.file);
      if hello.Err? || (!w.open && file.Err?) then Put(w, c, Refused(p, e))
      else
        Put(w, c, Greeted(p, e, hello.value.walIndex))
          .(open := true, wal := if w.open then w.wal else file.value)
  }

  function DoServerRecv(w: World, c: nat, e: nat, data: seq<byte>, io: W.AppendIo): World
    requires c in w.peers
  {
    var p := w.peers[c];
    if !Receives(w, c, e, data) then w
    else
      match Parse(data)
      case Err(_) => DropPlayer(w, c, e, |p.down|)
      case Ok(x) =>
        ParsedKnown(data);
        if W.AppendResult(w.wal, x, io).Err? then DropPlayer(w, c, e, |p.down|)
        else Put(w, c, Owing(p, e, KeyOf(x))).(wal := W.AppendState(w.wal, x, io))
  }

  function DoStreamOut(w: World, c: nat, e: nat): World
    requires c in w.peers
  {
    var p := w.peers[c];
    if e !in p.players then w
    else
      match W.Get(w.wal, p.players[e])
      case None => w
      case Some(x) => if Known(x) then Put(w, c, Streamed(p, e, x)) else DropPlayer(w, c, e, |p.down|)
  }

  /** The packet the server takes from connection `e`, if there is one. */
  predicate Receives(w: World, c: nat, e: nat, data: seq<byte>) {
    && c in w.peers && e in w.peers[c].players && (e, data) in w.peers[c].uplink
    && HasRoom(w.wal)
  }

  function AllGone(w: World): World {
    w.(open := false, peers := map c | c in w.peers :: ServerGone(w.peers[c]))
  }

  /** The server dies, perhaps while appending the entry of a packet. */
  function DoServerCrash(w: World, c: nat, e: nat, data: seq<byte>, written: nat): World {
    if !Receives(w, c, e, data) || Parse(data).Err? then AllGone(w)
    else
      ParsedKnown(data);
      var (wal, torn) := TornAppend(w.wal, Parse(data).value, written);
      AllGone(w).(wal := wal, torn := torn)
  }

  /** The steps that concern one client and its connection only. */
  function PeerStep(p: Peer, s: Step): Peer {
    match s
    case Start(_, me) => Started(p, me)
    case Stop(_) => Stopped(p)
    case TakePending(_) => if p.running then TookPending(p) else p
    case Resend(_, data) => if data in p.resend then Resent(p, data) else p
    case Dial(_) => if p.running && !p.up then Dialed(p) else p
    case PumpOut(_, data) => if p.up && data in p.outbox then Pumped(p, data) else p
    case OtherOut(_, e, pkt) =>
      if e in p.players && pkt.op != OP_WAL && pkt.op != OP_WAL_ACK then Sent(p, e, pkt) else p
    case AckOut(_, e, key) => if e in p.players && (e, key) in p.owed then Acked(p, e, key) else p
    case Deliver(_, io, truncateOk) => if p.up && p.down != [] then Delivered(p, io, truncateOk) else p
    case Disconnect(_) => Disconnected(p)
    case ClientCrash(_, written) => if p.running then Crashed(p, written) else p
    case _ => p
  }

  function Apply(w: World, s: Step): World {
    if s.Join? then if s.c in w.peers then w else Put(w, s.c, NewPeer(s.me))
    else if s.ServerCrash? then DoServerCrash(w, s.c, s.e, s.data, s.written)
    else if s.c !in w.peers then w
    else
      match s
      case GameWal(c, payload, nonce, io, room) => DoGameWal(w, c, payload, nonce, io, room)
      case Accept(c, e) => DoAccept(w, c, e)
      case ServerRecv(c, e, data, io) => DoServerRecv(w, c, e, data, io)
      case StreamOut(c, e) => DoStreamOut(w, c, e)
      case ServerDrop(c, e, survive) => DropPlayer(w, c, e, survive)
      case _ => Put(w, s.c, PeerStep(w.peers[s.c], s))
  }

  function Run(w: World, steps: seq<Step>): World
    decreases |steps|
  {
    if steps == [] then w else Run(Apply(w, steps[0]), steps[1..])
  }

  lemma {:induction false} RunConcat(w: World, xs: seq<Step>, ys: seq<Step>)
    ensures Run(w, xs + ys) == Run(Run(w, xs), ys)
    decreases |xs|
  {
    if xs == [] {
      assert xs + ys == ys;
    } else {
      assert (xs + ys)[1..] == xs[1..] + ys;
      RunConcat(Apply(w, xs[0]), xs[1..], ys);
    }
  }
}
