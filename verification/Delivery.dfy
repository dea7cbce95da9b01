/** No accepted entry is lost, and none is invented: the send queues in every run of the system. */
module Delivery {
  import opened Wrappers
  import opened Bytes
  import opened WalEntry
  import opened Wire
  import opened Packets
  import opened ClientState
  import opened Protocol
  import opened Links
  import opened Safety
  import Ipc
  import Q = QueueState
  import W = WalState

  // ---- Nothing is lost -----------------------------------------------------

  /** The key is in the server's log. */
  predicate Logged(log: seq<Entry>, k: Key) {
    k in W.KeySet(log)
  }

  /** Every one of these keys is in the server's log, or its entry is in the running client's queue;
      and unless the queue file has a torn record in it, in what a restart would read back. */
  predicate KeptInv(log: seq<Entry>, running: bool, clean: bool, q: Q.Queue, keys: set<Key>) {
    && (q.file == [] ==> clean)
    && (running ==> forall k <- keys :: Logged(log, k) || Held(q.live, k))
    && (clean ==> Q.Faithful(q) && forall k <- keys :: Logged(log, k) || Held(Q.Load(q.file).value, k))
  }

  /** After a torn write, the file still begins with what it was before, and that holds what it held. */
  predicate EarlyInv(log: seq<Entry>, p: Peer) {
    !p.clean ==>
      && p.whole <= p.core.queue.file && Q.Load(p.whole).Ok?
      && forall k <- p.early :: Logged(log, k) || Held(Q.Load(p.whole).value, k)
  }

  predicate QueueInv(log: seq<Entry>, p: Peer) {
    KeptInv(log, p.running, p.clean, p.core.queue, p.accepted - p.dropped) && EarlyInv(log, p)
  }

  lemma KeptGrow(log: seq<Entry>, log': seq<Entry>, running: bool, clean: bool, q: Q.Queue, keys: set<Key>)
    requires log <= log' && KeptInv(log, running, clean, q, keys)
    ensures KeptInv(log', running, clean, q, keys)
  {
    assert W.KeySet(log) <= W.KeySet(log');
  }

  /** A start finds everything, unless a write was torn; then it goes by what it finds. */
  lemma KeptRestart(log: seq<Entry>, p: Peer, me: Identity, core: Core)
    requires QueueInv(log, p) && !p.running && Q.Open(p.core.queue.file) == Ok(core.queue)
    ensures QueueInv(log, Restarted(p, me, core))
  {
    Q.OpenFaithful(p.core.queue.file);
  }

  /** The keys whose entries are safe after `Add`: one more if the entry is in the queue; one fewer if
      something else is there under its key. */
  function KeysAfter(q: Q.Queue, keys: set<Key>, id: Key, data: seq<byte>, io: Q.AddIo): set<Key>
    requires |data| < UINT32_MODULUS
  {
    if !Q.AddOk(q, id, io) then keys
    else if Held(Q.AddState(q, id, data, io).live, id) then keys + {id}
    else keys - {id}
  }

  lemma KeptAdd(log: seq<Entry>, clean: bool, q: Q.Queue, keys: set<Key>,
                id: Key, data: seq<byte>, io: Q.AddIo)
    requires |data| < UINT32_MODULUS && Carries(data, id) && KeptInv(log, true, clean, q, keys)
    ensures KeptInv(log, true, clean && Q.Untorn(q, id, data, io), Q.AddState(q, id, data, io),
                    KeysAfter(q, keys, id, data, io))
  {
    hide Carries;
    if clean {
      Q.AddReload(q, id, data, io);
    }
  }

  lemma KeptAck(log: seq<Entry>, clean: bool, q: Q.Queue, keys: set<Key>, id: Key, truncateOk: bool)
    requires KeptInv(log, true, clean, q, keys) && Logged(log, id)
    ensures KeptInv(log, true, clean || Q.AckState(q, id, truncateOk).file == [],
                    Q.AckState(q, id, truncateOk), keys)
  {
    Q.LoadNothing();
    if clean {
      Q.AckKeepsFaithful(q, id, truncateOk);
    }
    if |q.live| == 0 {
      assert q.live == map[];
    }
    var t := Q.AckState(q, id, truncateOk);
    if |q.live| != 0 {
      assert forall k <- q.live :: k != id ==> k in t.live;
      if |t.live| == 0 {
        assert t.live == map[];
      }
    }
  }

  // ---- Steps of one client -------------------------------------------------

  /** What a step leaves alone when it has nothing to do with the queue. */
  predicate QueueUntouched(p: Peer, q: Peer) {
    && q.core.queue == p.core.queue && q.clean == p.clean && q.dropped == p.dropped && q.salvaged == p.salvaged
    && q.whole == p.whole && q.early == p.early
    && q.accepted == p.accepted && (q.running ==> p.running)
  }

  predicate Calm(p: Peer, q: Peer) {
    QueueUntouched(p, q) && q.me == p.me && q.outbox <= p.outbox && q.resend <= p.resend && q.uplink <= p.uplink
  }

  lemma CalmClient(p: Peer, written: nat)
    ensures Calm(p, p) && Calm(p, Stopped(p)) && Calm(p, Disconnected(p)) && Calm(p, Crashed(p, written))
  {
    hide CrashedWal;
  }

  lemma CalmDial(p: Peer)
    ensures Calm(p, Dialed(p))
  {
    hide SerializeClientHello;
  }

  lemma CalmServer(p: Peer, e: nat, pkt: Packet, key: Key)
    ensures Calm(p, Sent(p, e, pkt)) && Calm(p, Acked(p, e, key))
  {
  }

  lemma QuietQueue(p: Peer, s: Step)
    requires !s.Start? && !s.Deliver?
    ensures QueueUntouched(p, PeerStep(p, s))
    ensures PeerStep(p, s).outbox <= p.outbox + if s.Resend? && s.data in p.resend then {s.data} else {}
    ensures PeerStep(p, s).resend <= p.resend + if s.TakePending? && p.running then p.core.queue.live.Values else {}
    ensures PeerStep(p, s).uplink <= p.uplink + if s.PumpOut? && s.data in p.outbox then {(p.epoch, s.data)} else {}
    ensures PeerStep(p, s).me == p.me
  {
    hide Started, Delivered, Crashed, Dialed, Sent, Acked, Stopped, Disconnected, Parse, Fits;
    CalmClient(p, if s.ClientCrash? then s.written else 0);
    match s {
      case Dial(_) => CalmDial(p);
      case OtherOut(_, e, pkt) => CalmServer(p, e, pkt, Zeros(16));
      case AckOut(_, e, key) => CalmServer(p, e, Packet(0, []), key);
      case _ =>
    }
  }

  /** The packet in front of a client acknowledges only what is in the server's log. */
  lemma DeliverQueue(log: seq<Entry>, p: Peer, io: W.AppendIo, truncateOk: bool) returns (id: Key, acked: bool)
    requires GoodLog(log) && PeerInv(log, p) && p.up && p.down != []
    ensures acked ==> Logged(log, id)
    ensures p.running && (p.clean ==> Delivered(p, io, truncateOk).clean)
    ensures var q := Delivered(p, io, truncateOk);
            && q == p.(core := q.core, up := q.up, down := q.down, clean := q.clean)
            && q.core.queue == (if acked then Q.AckState(p.core.queue, id, truncateOk) else p.core.queue)
            && (acked ==> q.clean == (p.clean || q.core.queue.file == []))
            && (!acked ==> q.clean == p.clean || p.core.queue.file == [])
  {
    hide W.AppendState, W.AppendResult, Q.AckState, W.Load;
    var pkt := p.down[0];
    if !PacketOk(p.core, pkt, io) {
      id, acked := Zeros(16), false;
    } else if pkt.op == OP_WAL {
      DeliverWal(log, p, io);
      var e := log[|p.core.wal.entries|];
      assert e in log;
      id, acked := KeyOf(e), true;
    } else if pkt.op == OP_WAL_ACK {
      id, acked := pkt.data, true;
    } else {
      id, acked := Zeros(16), false;
    }
  }

  lemma PeerStepKeepsQueue(log: seq<Entry>, p: Peer, s: Step)
    requires GoodLog(log) && PeerInv(log, p) && QueueInv(log, p)
    ensures QueueInv(log, PeerStep(p, s))
  {
    hide PeerInv, GoodLog, Delivered, W.Open, PacketOk;
    if s.Start? {
      hide Restarted, KeptInv;
      if Started(p, s.me) != p {
        KeptRestart(log, p, s.me, Core(W.Open(p.core.wal.file).value, Q.Open(p.core.queue.file).value));
      }
    } else if s.Deliver? {
      if p.up && p.down != [] {
        var id, acked := DeliverQueue(log, p, s.io, s.truncateOk);
        if acked {
          KeptAck(log, p.clean, p.core.queue, p.accepted - p.dropped, id, s.truncateOk);
        }
      }
    } else {
      hide PeerStep;
      QuietQueue(p, s);
    }
  }

  lemma PayloadCarries(e: Entry)
    requires Known(e)
    ensures Carries(W.Payload(e), KeyOf(e))
  {
    KeySurvivesCodec(e, []);
    assert W.Payload(e) + [] == W.Payload(e);
  }

  lemma AddOnlyAdds(q: Q.Queue, id: Key, data: seq<byte>, io: Q.AddIo)
    requires |data| < UINT32_MODULUS
    ensures q.file <= Q.AddState(q, id, data, io).file
  {
    hide Q.Left;
  }

  lemma ReportKeepsQueue(log: seq<Entry>, p: Peer, token: uint32, e: Entry, io: Q.AddIo, room: bool)
    requires Known(e) && p.running && QueueInv(log, p)
    ensures QueueInv(log, Reported(p, token, e, io, room))
  {
    ReportKeepsKept(log, p, token, e, io, room);
    ReportKeepsEarly(log, p, token, e, io, room);
  }

  lemma ReportKeepsKept(log: seq<Entry>, p: Peer, token: uint32, e: Entry, io: Q.AddIo, room: bool)
    requires Known(e) && p.running && QueueInv(log, p)
    ensures var q := Reported(p, token, e, io, room);
            KeptInv(log, q.running, q.clean, q.core.queue, q.accepted - q.dropped)
  {
    hide KeptInv, EarlyInv, Q.AddState, Q.Untorn, KeyOf, W.Payload, Carries, Held;
    var q, keys := Reported(p, token, e, io, room), p.accepted - p.dropped;
    PayloadCarries(e);
    KeptAdd(log, p.clean, p.core.queue, keys, KeyOf(e), W.Payload(e), io);
    assert q.accepted - q.dropped == KeysAfter(p.core.queue, keys, KeyOf(e), W.Payload(e), io);
  }

  lemma ReportKeepsEarly(log: seq<Entry>, p: Peer, token: uint32, e: Entry, io: Q.AddIo, room: bool)
    requires Known(e) && p.running && QueueInv(log, p)
    ensures EarlyInv(log, Reported(p, token, e, io, room))
  {
    hide Q.AddState, Q.Untorn, KeyOf, W.Payload, Held, Q.Load;
    AddOnlyAdds(p.core.queue, KeyOf(e), W.Payload(e), io);
  }

  // ---- Nothing is invented -------------------------------------------------

  /** The bytes are the entry of some game's report. */
  predicate FromGame(reported: set<Entry>, data: seq<byte>) {
    var e := Parse(data);
    e.Ok? && e.value in reported
  }

  /** ... or were found by a start on a misaligned queue file. */
  predicate Sourced(reported: set<Entry>, salvaged: set<seq<byte>>, data: seq<byte>) {
    data in salvaged || FromGame(reported, data)
  }

  predicate AllSourced(reported: set<Entry>, salvaged: set<seq<byte>>, ds: set<seq<byte>>) {
    forall d <- ds :: Sourced(reported, salvaged, d)
  }

  /** A queue entry from a game is queued under the key the server will compute for it. */
  predicate Genuine(reported: set<Entry>, salvaged: set<seq<byte>>, id: Key, data: seq<byte>) {
    data in salvaged || (FromGame(reported, data) && Carries(data, id))
  }

  predicate AllGenuine(reported: set<Entry>, salvaged: set<seq<byte>>, m: Q.Live) {
    forall id <- m :: Genuine(reported, salvaged, id, m[id])
  }

  predicate FileGenuine(reported: set<Entry>, salvaged: set<seq<byte>>, q: Q.Queue) {
    Q.Load(q.file).Ok? && AllGenuine(reported, salvaged, Q.Load(q.file).value)
  }

  predicate OriginInv(reported: set<Entry>, p: Peer) {
    && (p.running ==> AllGenuine(reported, p.salvaged, p.core.queue.live))
    && (p.clean ==> FileGenuine(reported, p.salvaged, p.core.queue))
    && AllSourced(reported, p.salvaged, p.resend) && AllSourced(reported, p.salvaged, p.outbox)
    && (forall x <- p.uplink :: Sourced(reported, p.salvaged, x.1))
    && (p.salvaged == {} ==> p.dropped == {})
  }

  lemma OriginGrow(reported: set<Entry>, reported': set<Entry>, p: Peer)
    requires reported <= reported' && OriginInv(reported, p)
    ensures OriginInv(reported', p)
  {
  }

  lemma PayloadGenuine(reported: set<Entry>, salvaged: set<seq<byte>>, e: Entry)
    requires IsNormal(e) && e in reported
    ensures Genuine(reported, salvaged, KeyOf(e), W.Payload(e)) && Sourced(reported, salvaged, W.Payload(e))
  {
    PayloadCarries(e);
    ParseSerializeExact(e);
  }

  lemma GenuineAdd(reported: set<Entry>, salvaged: set<seq<byte>>, q: Q.Queue, e: Entry, io: Q.AddIo, clean: bool)
    requires IsNormal(e) && e in reported && AllGenuine(reported, salvaged, q.live)
    requires clean ==> Q.Faithful(q) && FileGenuine(reported, salvaged, q)
    ensures AllGenuine(reported, salvaged, Q.AddState(q, KeyOf(e), W.Payload(e), io).live)
    ensures clean && Q.Untorn(q, KeyOf(e), W.Payload(e), io) ==>
              FileGenuine(reported, salvaged, Q.AddState(q, KeyOf(e), W.Payload(e), io))
  {
    PayloadGenuine(reported, salvaged, e);
    if clean {
      Q.AddReload(q, KeyOf(e), W.Payload(e), io);
    }
  }

  lemma ReportKeepsOrigin(log: seq<Entry>, reported: set<Entry>, p: Peer, token: uint32, e: Entry,
                          io: Q.AddIo, room: bool)
    requires IsNormal(e) && e in reported && p.running
    requires QueueInv(log, p) && OriginInv(reported, p)
    ensures OriginInv(reported, Reported(p, token, e, io, room))
  {
    hide Genuine, Sourced, Q.AddState, Q.Load, Held, KeyOf, W.Payload, Q.Untorn, QueueInv, Q.Faithful, FileGenuine,
         AllGenuine, Reported;
    var q := Reported(p, token, e, io, room);
    ReportFields(p, token, e, io, room);
    CleanFaithful(log, p);
    PayloadGenuine(reported, p.salvaged, e);
    if p.salvaged == {} {
      AddPuts(p.core.queue, KeyOf(e), W.Payload(e), io);
      QueuedGenuine(reported, q.core.queue, KeyOf(e));
    }
    GenuineAdd(reported, p.salvaged, p.core.queue, e, io, p.clean);
  }

  /** What a report changes, as far as the origin of data goes. */
  lemma ReportFields(p: Peer, token: uint32, e: Entry, io: Q.AddIo, room: bool)
    requires Known(e)
    ensures var q, data := Reported(p, token, e, io, room), W.Payload(e);
            && q.running == p.running && q.salvaged == p.salvaged && q.resend == p.resend && q.uplink == p.uplink
            && q.outbox <= p.outbox + {data}
            && q.core.queue == Q.AddState(p.core.queue, KeyOf(e), data, io)
            && (q.clean ==> p.clean && Q.Untorn(p.core.queue, KeyOf(e), data, io))
            && (Q.AddOk(p.core.queue, KeyOf(e), io) && Held(q.core.queue.live, KeyOf(e)) ==> q.dropped <= p.dropped)
            && (!Q.AddOk(p.core.queue, KeyOf(e), io) ==> q.dropped == p.dropped)
  {
    hide Q.AddState, Q.Untorn, KeyOf, W.Payload, Held;
  }

  lemma CleanFaithful(log: seq<Entry>, p: Peer)
    requires QueueInv(log, p)
    ensures p.clean ==> Q.Faithful(p.core.queue)
  {
  }

  lemma QueuedGenuine(reported: set<Entry>, q: Q.Queue, id: Key)
    ensures AllGenuine(reported, {}, q.live) && id in q.live ==> Held(q.live, id)
  {
  }

  lemma AddPuts(q: Q.Queue, id: Key, data: seq<byte>, io: Q.AddIo)
    requires |data| < UINT32_MODULUS
    ensures Q.AddOk(q, id, io) ==> id in Q.AddState(q, id, data, io).live
  {
    hide Q.Left;
  }

  /** A start keeps what the file holds; if that is not to be trusted, it is marked. */
  lemma RestartKeepsOrigin(reported: set<Entry>, p: Peer, me: Identity, core: Core)
    requires OriginInv(reported, p) && Q.Open(p.core.queue.file) == Ok(core.queue)
    requires p.core.queue.file == [] ==> p.clean
    ensures OriginInv(reported, Restarted(p, me, core))
  {
    hide FromGame, Held, Carries;
    if !p.clean {
      Q.LoadSomething(p.core.queue.file);
      assert core.queue.live.Values <= Restarted(p, me, core).salvaged;
    }
  }

  lemma PeerStepKeepsOrigin(log: seq<Entry>, reported: set<Entry>, p: Peer, s: Step)
    requires GoodLog(log) && PeerInv(log, p) && QueueInv(log, p) && OriginInv(reported, p)
    ensures OriginInv(reported, PeerStep(p, s))
  {
    hide PeerInv, GoodLog, Delivered, W.Open, PacketOk, FromGame, Genuine, Sourced;
    if s.Start? {
      hide Restarted, OriginInv;
      if Started(p, s.me) != p {
        RestartKeepsOrigin(reported, p, s.me, Core(W.Open(p.core.wal.file).value, Q.Open(p.core.queue.file).value));
      }
    } else if s.Deliver? {
      if p.up && p.down != [] {
        var id, acked := DeliverQueue(log, p, s.io, s.truncateOk);
        if acked {
          AckKeepsGenuine(reported, p.salvaged, p.core.queue, id, s.truncateOk, p.clean);
        }
      }
    } else {
      hide PeerStep;
      QuietQueue(p, s);
      if s.TakePending? && p.running {
        forall d <- p.core.queue.live.Values ensures Sourced(reported, p.salvaged, d) {
          var id :| id in p.core.queue.live && p.core.queue.live[id] == d;
          GenuineSourced(reported, p.salvaged, id, d);
        }
      }
    }
  }

  lemma GenuineSourced(reported: set<Entry>, salvaged: set<seq<byte>>, id: Key, d: seq<byte>)
    requires Genuine(reported, salvaged, id, d)
    ensures Sourced(reported, salvaged, d)
  {
  }

  lemma AckKeepsGenuine(reported: set<Entry>, salvaged: set<seq<byte>>, q: Q.Queue, id: Key, truncateOk: bool,
                        clean: bool)
    requires AllGenuine(reported, salvaged, q.live)
    requires clean ==> FileGenuine(reported, salvaged, q)
    ensures AllGenuine(reported, salvaged, Q.AckState(q, id, truncateOk).live)
    ensures clean || Q.AckState(q, id, truncateOk).file == [] ==>
              FileGenuine(reported, salvaged, Q.AckState(q, id, truncateOk))
  {
    Q.LoadNothing();
  }

  // ---- The whole system ----------------------------------------------------

  /** Some client found the entry when it started on a misaligned queue file. */
  ghost predicate Salvaged(peers: map<nat, Peer>, e: Entry) {
    exists c, d :: c in peers && d in peers[c].salvaged && Parse(d) == Ok(e)
  }

  ghost predicate NothingInvented(w: World) {
    forall e <- w.wal.entries :: e in w.reported || Salvaged(w.peers, e)
  }

  /** Nobody forgets what was salvaged. */
  predicate SalvageKept(ps: map<nat, Peer>, qs: map<nat, Peer>) {
    forall c <- ps :: c in qs && ps[c].salvaged <= qs[c].salvaged
  }

  lemma SalvagedGrow(ps: map<nat, Peer>, qs: map<nat, Peer>, e: Entry)
    requires SalvageKept(ps, qs) && Salvaged(ps, e)
    ensures Salvaged(qs, e)
  {
    var c, d :| c in ps && d in ps[c].salvaged && Parse(d) == Ok(e);
    assert c in qs && d in qs[c].salvaged;
  }

  predicate PeersInv(log: seq<Entry>, reported: set<Entry>, peers: map<nat, Peer>) {
    forall c <- peers :: QueueInv(log, peers[c]) && OriginInv(reported, peers[c])
  }

  ghost predicate SystemInv(w: World) {
    && Inv(w)
    && PeersInv(w.wal.entries, w.reported, w.peers)
    && NothingInvented(w)
  }

  /** What the server does changes nothing in a client but what is on its way to it. */
  predicate SameClient(p: Peer, q: Peer) {
    q == p.(down := q.down, players := q.players, hellos := q.hellos, owed := q.owed)
  }

  predicate SameClients(ps: map<nat, Peer>, qs: map<nat, Peer>) {
    qs.Keys == ps.Keys && forall c <- ps :: SameClient(ps[c], qs[c])
  }

  lemma PutSame(w: World, c: nat, q: Peer)
    requires c in w.peers && SameClient(w.peers[c], q)
    ensures SameClients(w.peers, Put(w, c, q).peers)
  {
  }

  predicate ServerStep(s: Step) {
    s.Accept? || s.ServerRecv? || s.StreamOut? || s.ServerDrop? || s.ServerCrash?
  }

  lemma DropClients(w: World, c: nat, e: nat, survive: nat)
    requires c in w.peers
    ensures var w' := DropPlayer(w, c, e, survive);
            SameClients(w.peers, w'.peers) && w'.reported == w.reported && w'.wal == w.wal
  {
    PutSame(w, c, Dropped(w.peers[c], e, survive));
  }

  lemma AcceptClients(w: World, c: nat, e: nat)
    requires c in w.peers
    ensures var w' := DoAccept(w, c, e);
            SameClients(w.peers, w'.peers) && w'.reported == w.reported
  {
    hide ParseClientHello, W.Open, SameClients;
    var p := w.peers[c];
    PutSame(w, c, p);
    assert Put(w, c, p) == w;
    PutSame(w, c, Refused(p, e));
    forall i: uint32 ensures SameClients(w.peers, Put(w, c, Greeted(p, e, i)).peers) {
      PutSame(w, c, Greeted(p, e, i));
    }
  }

  lemma RecvClients(w: World, c: nat, e: nat, data: seq<byte>, io: W.AppendIo)
    requires c in w.peers
    ensures var w' := DoServerRecv(w, c, e, data, io);
            && SameClients(w.peers, w'.peers) && w'.reported == w.reported
            && (w'.wal == w.wal || (Receives(w, c, e, data) && Parse(data).Ok?
                                    && w'.wal == W.AppendState(w.wal, Parse(data).value, io)))
  {
    hide Parse, Receives, W.AppendState, W.AppendResult, SameClients, DropPlayer;
    var p := w.peers[c];
    PutSame(w, c, p);
    assert Put(w, c, p) == w;
    DropClients(w, c, e, |p.down|);
    forall key: Key ensures SameClients(w.peers, Put(w, c, Owing(p, e, key)).peers) {
      PutSame(w, c, Owing(p, e, key));
    }
  }

  lemma StreamClients(w: World, c: nat, e: nat)
    requires c in w.peers
    ensures var w' := DoStreamOut(w, c, e);
            SameClients(w.peers, w'.peers) && w'.reported == w.reported
  {
    hide WalPacket, DropPlayer, SameClients;
    var p := w.peers[c];
    PutSame(w, c, p);
    assert Put(w, c, p) == w;
    DropClients(w, c, e, |p.down|);
    if e in p.players && W.Get(w.wal, p.players[e]).Some? && Known(W.Get(w.wal, p.players[e]).value) {
      PutSame(w, c, Streamed(p, e, W.Get(w.wal, p.players[e]).value));
    }
  }

  lemma CrashClients(w: World, c: nat, e: nat, data: seq<byte>, written: nat)
    ensures var w' := DoServerCrash(w, c, e, data, written);
            && SameClients(w.peers, w'.peers) && w'.reported == w.reported
            && (w'.wal == w.wal || (Receives(w, c, e, data) && Parse(data).Ok? && Known(Parse(data).value)
                                    && w'.wal == TornAppend(w.wal, Parse(data).value, written).0))
  {
    hide Receives, TornAppend;
    if Parse(data).Ok? {
      ParsedKnown(data);
    }
  }

  lemma NoClients(w: World)
    ensures SameClients(w.peers, w.peers)
  {
  }

  lemma ServerStepClients(w: World, s: Step)
    requires ServerStep(s)
    ensures SameClients(w.peers, Apply(w, s).peers) && Apply(w, s).reported == w.reported
  {
    hide DoAccept, DoServerRecv, DoStreamOut, DropPlayer, DoServerCrash, PeerStep, DoGameWal, SameClients;
    NoClients(w);
    match s {
      case Accept(c, e) => if c in w.peers { AcceptClients(w, c, e); }
      case ServerRecv(c, e, data, io) => if c in w.peers { RecvClients(w, c, e, data, io); }
      case StreamOut(c, e) => if c in w.peers { StreamClients(w, c, e); }
      case ServerDrop(c, e, survive) => if c in w.peers { DropClients(w, c, e, survive); }
      case ServerCrash(c, e, data, written) => CrashClients(w, c, e, data, written);
      case _ =>
    }
  }

  lemma GameWalOthers(w: World, x: nat, payload: seq<byte>, nonce: uint32, io: Q.AddIo, room: bool, c: nat)
    requires c in w.peers && x in w.peers && x != c
    ensures c in DoGameWal(w, x, payload, nonce, io, room).peers
            && DoGameWal(w, x, payload, nonce, io, room).peers[c] == w.peers[c]
  {
    hide EntryFor, Reported;
  }

  /** What one step can do to one client. */
  lemma StepOf(w: World, s: Step, c: nat)
    requires c in w.peers
    ensures c in Apply(w, s).peers
    ensures var p, q := w.peers[c], Apply(w, s).peers[c];
            if ServerStep(s) then SameClient(p, q)
            else if s.Join? || s.c != c then q == p
            else if s.GameWal? then
              var w' := DoGameWal(w, c, s.payload, s.nonce, s.addIo, s.room);
              c in w'.peers && q == w'.peers[c]
            else q == PeerStep(p, s)
  {
    hide PeerStep, DoAccept, DoServerRecv, DoStreamOut, DropPlayer, DoServerCrash, DoGameWal, SameClient, NewPeer;
    if ServerStep(s) {
      ServerStepClients(w, s);
    } else if s.GameWal? && s.c in w.peers {
      if s.c != c {
        GameWalOthers(w, s.c, s.payload, s.nonce, s.addIo, s.room, c);
      } else {
        GameWalStays(w, c, s.payload, s.nonce, s.addIo, s.room);
      }
    }
  }

  lemma GameWalStays(w: World, c: nat, payload: seq<byte>, nonce: uint32, io: Q.AddIo, room: bool)
    requires c in w.peers
    ensures c in DoGameWal(w, c, payload, nonce, io, room).peers
  {
    hide EntryFor, Reported;
  }

  /** The log is as before, or one longer by an entry that a client sent. */
  ghost predicate GrownBySent(w: World, log': seq<Entry>) {
    log' == w.wal.entries
    || exists c, e, data :: Receives(w, c, e, data) && Parse(data).Ok?
                            && log' == w.wal.entries + [Parse(data).value]
  }

  lemma CrashLog(w: World, c: nat, e: nat, data: seq<byte>, written: nat)
    requires Inv(w) && Receives(w, c, e, data) && Parse(data).Ok?
    ensures Known(Parse(data).value)
    ensures GrownBySent(w, TornAppend(w.wal, Parse(data).value, written).0.entries)
  {
    PlayerMeansOpen(w, c, e);
    SerializeParse(data);
    TornAppendOutcome(w.wal, Parse(data).value, written);
  }

  lemma RecvLog(w: World, c: nat, e: nat, data: seq<byte>, io: W.AppendIo)
    requires c in w.peers
    ensures GrownBySent(w, DoServerRecv(w, c, e, data, io).wal.entries)
  {
    hide DoServerRecv, Parse, Receives;
    RecvClients(w, c, e, data, io);
  }

  lemma ServerStepLog(w: World, s: Step)
    requires Inv(w) && ServerStep(s)
    ensures GrownBySent(w, Apply(w, s).wal.entries)
  {
    hide DoAccept, DoServerRecv, DoStreamOut, DropPlayer, DoServerCrash, Inv, TornAppend, Parse, Receives, PeerStep,
         DoGameWal;
    match s {
      case Accept(c, e) => if c in w.peers { AcceptKeeps(w, c, e); }
      case ServerRecv(c, e, data, io) => if c in w.peers { RecvLog(w, c, e, data, io); }
      case StreamOut(c, e) => if c in w.peers { StreamOutKeeps(w, c, e); }
      case ServerDrop(c, e, survive) => if c in w.peers { DropClients(w, c, e, survive); }
      case ServerCrash(c, e, data, written) =>
        CrashClients(w, c, e, data, written);
        if Receives(w, c, e, data) && Parse(data).Ok? { CrashLog(w, c, e, data, written); }
      case _ =>
    }
  }

  lemma SameClientKeeps(log: seq<Entry>, log': seq<Entry>, reported: set<Entry>, p: Peer, q: Peer)
    requires log <= log' && SameClient(p, q) && QueueInv(log, p) && OriginInv(reported, p)
    ensures QueueInv(log', q) && OriginInv(reported, q)
  {
    hide KeptInv, AllGenuine, FileGenuine, AllSourced, Sourced;
    KeptGrow(log, log', p.running, p.clean, p.core.queue, p.accepted - p.dropped);
  }

  lemma ServerStepKeeps(w: World, s: Step)
    requires SystemInv(w) && ServerStep(s)
    ensures SystemInv(Apply(w, s))
  {
    hide Apply, Inv;
    var w' := Apply(w, s);
    StepKeeps(w, s);
    ServerStepClients(w, s);
    ServerStepLog(w, s);
    SameClientsKeep(w, w');
  }

  lemma SameClientsKeep(w: World, w': World)
    requires SystemInv(w) && Inv(w') && w.wal.entries <= w'.wal.entries
    requires SameClients(w.peers, w'.peers) && w'.reported == w.reported && GrownBySent(w, w'.wal.entries)
    ensures SystemInv(w')
  {
    hide Inv, QueueInv, OriginInv;
    forall c <- w'.peers ensures QueueInv(w'.wal.entries, w'.peers[c]) && OriginInv(w'.reported, w'.peers[c]) {
      SameClientKeeps(w.wal.entries, w'.wal.entries, w.reported, w.peers[c], w'.peers[c]);
    }
    forall e <- w'.wal.entries ensures e in w'.reported || Salvaged(w'.peers, e) {
      if e in w.wal.entries {
        if e !in w.reported { SalvagedGrow(w.peers, w'.peers, e); }
      } else {
        var c, ep, data :| Receives(w, c, ep, data) && Parse(data).Ok?
                           && w'.wal.entries == w.wal.entries + [Parse(data).value];
        SentSourced(w, c, ep, data);
        if data in w.peers[c].salvaged {
          assert c in w'.peers && data in w'.peers[c].salvaged;
        }
      }
    }
  }

  lemma SentSourced(w: World, c: nat, e: nat, data: seq<byte>)
    requires SystemInv(w) && Receives(w, c, e, data)
    ensures Sourced(w.reported, w.peers[c].salvaged, data)
  {
    assert OriginInv(w.reported, w.peers[c]);
    assert (e, data) in w.peers[c].uplink;
  }

  lemma PutKeepsSystem(w: World, c: nat, q: Peer, reported: set<Entry>, w': World)
    requires SystemInv(w) && Inv(w') && w' == Put(w, c, q).(reported := reported)
    requires w.reported <= reported
    requires QueueInv(w.wal.entries, q) && OriginInv(reported, q)
    requires c in w.peers ==> w.peers[c].salvaged <= q.salvaged
    ensures SystemInv(w')
  {
    hide Inv, QueueInv, OriginInv;
    forall x <- w'.peers ensures QueueInv(w'.wal.entries, w'.peers[x]) && OriginInv(reported, w'.peers[x]) {
      if x != c {
        OriginGrow(w.reported, reported, w.peers[x]);
      }
    }
    forall e <- w.wal.entries ensures e in reported || Salvaged(w'.peers, e) {
      if e !in w.reported { SalvagedGrow(w.peers, w'.peers, e); }
    }
  }

  lemma PeerStepSalvaged(p: Peer, s: Step)
    ensures p.salvaged <= PeerStep(p, s).salvaged
  {
    if s.Start? {
      hide W.Open, Q.Open;
    } else if s.Deliver? {
      hide OnUplinkPacket, PacketOk;
    } else {
      hide PeerStep;
      QuietQueue(p, s);
    }
  }

  lemma JoinSystem(w: World, c: nat, me: Identity)
    requires SystemInv(w) && c !in w.peers
    ensures SystemInv(Put(w, c, NewPeer(me)))
  {
    JoinKeeps(w, c, me);
    Q.LoadNothing();
    PutKeepsSystem(w, c, NewPeer(me), w.reported, Put(w, c, NewPeer(me)));
  }

  lemma GameWalSystem(w: World, c: nat, payload: seq<byte>, nonce: uint32, io: Q.AddIo, room: bool)
    requires SystemInv(w) && c in w.peers
    ensures SystemInv(DoGameWal(w, c, payload, nonce, io, room))
  {
    hide Inv, Reported, EntryFor, QueueInv, OriginInv;
    GameWalKeeps(w, c, payload, nonce, io, room);
    var p, msg := w.peers[c], Ipc.ParseWalIn(payload);
    if p.running && msg.Ok? && EntryFor(p.me, msg.value, nonce).Ok? {
      var e := EntryFor(p.me, msg.value, nonce).value;
      EntryForNormal(p.me, msg.value, nonce);
      ReportSystem(w, c, msg.value.token, e, io, room, DoGameWal(w, c, payload, nonce, io, room));
    }
  }

  lemma ReportSystem(w: World, c: nat, token: uint32, e: Entry, io: Q.AddIo, room: bool, w': World)
    requires SystemInv(w) && c in w.peers && w.peers[c].running && IsNormal(e)
    requires Inv(w') && w' == Put(w, c, Reported(w.peers[c], token, e, io, room)).(reported := w.reported + {e})
    ensures SystemInv(w')
  {
    var p, log, reported := w.peers[c], w.wal.entries, w.reported + {e};
    ReportKeepsQueue(log, p, token, e, io, room);
    OriginGrow(w.reported, reported, p);
    ReportKeepsOrigin(log, reported, p, token, e, io, room);
    PutKeepsSystem(w, c, Reported(p, token, e, io, room), reported, w');
  }

  lemma PeerStepSystem(w: World, s: Step, c: nat)
    requires SystemInv(w) && c in w.peers
    ensures SystemInv(Put(w, c, PeerStep(w.peers[c], s)))
  {
    hide PeerStep;
    var p, log := w.peers[c], w.wal.entries;
    var q := PeerStep(p, s);
    PutStepKeeps(w, s, c);
    PeerStepKeepsQueue(log, p, s);
    PeerStepKeepsOrigin(log, w.reported, p, s);
    PeerStepSalvaged(p, s);
    PutKeepsSystem(w, c, q, w.reported, Put(w, c, q));
  }

  lemma SystemStepKeeps(w: World, s: Step)
    requires SystemInv(w)
    ensures SystemInv(Apply(w, s))
  {
    if ServerStep(s) {
      ServerStepKeeps(w, s);
    } else {
      ClientStepSystem(w, s);
    }
  }

  lemma ClientStepSystem(w: World, s: Step)
    requires SystemInv(w) && !ServerStep(s)
    ensures SystemInv(Apply(w, s))
  {
    hide SystemInv, PeerStep, DoGameWal, NewPeer;
    var c := s.c;
    if s.Join? {
      if c !in w.peers { JoinSystem(w, c, s.me); }
    } else if s.GameWal? {
      if c in w.peers { GameWalSystem(w, c, s.payload, s.nonce, s.addIo, s.room); }
    } else if c in w.peers {
      PeerStepSystem(w, s, c);
    }
  }

  lemma InitSystem()
    ensures SystemInv(INIT)
  {
  }

  lemma {:induction false} RunKeepsSystem(w: World, steps: seq<Step>)
    requires SystemInv(w)
    ensures SystemInv(Run(w, steps))
    ensures w.wal.entries <= Run(w, steps).wal.entries
    decreases |steps|
  {
    if steps != [] {
      SystemStepKeeps(w, steps[0]);
      StepKeeps(w, steps[0]);
      RunKeepsSystem(Apply(w, steps[0]), steps[1..]);
    }
  }

  /** Every state the system can reach. */
  lemma Reachable(steps: seq<Step>)
    ensures SystemInv(Run(INIT, steps))
  {
    InitSystem();
    RunKeepsSystem(INIT, steps);
  }
}
