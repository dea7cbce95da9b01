/** Safety over every run of the system. */
module Safety {
  import opened Bytes
  import opened WalEntry
  import opened Wire
  import opened Packets
  import opened ClientState
  import opened Protocol
  import opened Links
  import Ipc
  import Q = QueueState
  import W = WalState

  // ---- Steps that touch the server's log -----------------------------------

  lemma AppendGoodLog(s: W.State, x: Entry, io: W.AppendIo)
    requires W.Sound(s) && GoodLog(s.entries) && HasRoom(s) && IsNormal(x)
    ensures GoodLog(W.AppendState(s, x, io).entries)
  {
    W.AppendKeepsSound(s, x, io);
    W.AppendKeepsNoRepeats(s, x, io);
  }

  lemma GrowAll(w: World, log: seq<Entry>)
    requires Inv(w) && GoodLog(log) && w.wal.entries <= log
    ensures forall c <- w.peers :: PeerInv(log, w.peers[c])
  {
    forall c <- w.peers ensures PeerInv(log, w.peers[c]) {
      GrowKeepsPeerInv(w.wal.entries, log, w.peers[c]);
    }
  }

  /** A larger log on the server disturbs no client. */
  lemma AppendKeeps(w: World, x: Entry, io: W.AppendIo)
    requires Inv(w) && !w.torn && HasRoom(w.wal) && IsNormal(x)
    ensures Inv(w.(wal := W.AppendState(w.wal, x, io)))
    ensures w.wal.entries <= W.AppendState(w.wal, x, io).entries
  {
    W.AppendKeepsSound(w.wal, x, io);
    AppendGoodLog(w.wal, x, io);
    GrowAll(w, W.AppendState(w.wal, x, io).entries);
  }

  lemma PlayerMeansOpen(w: World, c: nat, e: nat)
    requires Inv(w) && c in w.peers && e in w.peers[c].players
    ensures w.open && !w.torn && W.Sound(w.wal)
  {
    assert |w.peers[c].players| > 0;
  }

  lemma RecvKeeps(w: World, c: nat, e: nat, data: seq<byte>, io: W.AppendIo)
    requires Inv(w) && c in w.peers
    ensures Inv(DoServerRecv(w, c, e, data, io))
    ensures w.wal.entries <= DoServerRecv(w, c, e, data, io).wal.entries
  {
    hide Inv, Parse, W.AppendState, W.AppendResult, PeerInv;
    var p := w.peers[c];
    if Receives(w, c, e, data) {
      PlayerMeansOpen(w, c, e);
      DropPlayerKeeps(w, c, e, |p.down|);
      if Parse(data).Ok? {
        var x := Parse(data).value;
        SerializeParse(data);
        AppendKeeps(w, x, io);
        if W.AppendResult(w.wal, x, io).Ok? {
          var v := w.(wal := W.AppendState(w.wal, x, io));
          W.AppendKeepsSound(w.wal, x, io);
          assert Inv(v) && KeyOf(x) in v.wal.keys;
          RecvOwes(v, c, e, KeyOf(x));
        }
      }
    }
  }

  lemma RecvOwes(w: World, c: nat, e: nat, key: Key)
    requires Inv(w) && c in w.peers && W.Sound(w.wal) && key in w.wal.keys
    ensures Inv(Put(w, c, Owing(w.peers[c], e, key)))
  {
    hide PeerInv, W.Load;
    OwingKeeps(w.wal.entries, w.peers[c], e, key);
    PutKeeps(w, c, Owing(w.peers[c], e, key));
  }

  lemma StreamOutKeeps(w: World, c: nat, e: nat)
    requires Inv(w) && c in w.peers
    ensures Inv(DoStreamOut(w, c, e))
    ensures DoStreamOut(w, c, e).wal == w.wal
  {
    var p := w.peers[c];
    if e in p.players && W.Get(w.wal, p.players[e]).Some? {
      StreamKeeps(w.wal.entries, p, e);
      PutKeeps(w, c, Streamed(p, e, w.wal.entries[p.players[e]]));
    }
  }

  lemma GoneAll(w: World)
    requires Inv(w)
    ensures Inv(AllGone(w))
  {
    forall c <- w.peers ensures PeerInv(w.wal.entries, ServerGone(w.peers[c])) {
      GoneKeeps(w.wal.entries, w.peers[c]);
    }
  }

  lemma ServerCrashKeeps(w: World, c: nat, e: nat, data: seq<byte>, written: nat)
    requires Inv(w)
    ensures Inv(DoServerCrash(w, c, e, data, written))
    ensures w.wal.entries <= DoServerCrash(w, c, e, data, written).wal.entries
  {
    hide PeerInv, W.Load, W.Record;
    GoneAll(w);
    if Receives(w, c, e, data) && Parse(data).Ok? {
      var x := Parse(data).value;
      PlayerMeansOpen(w, c, e);
      SerializeParse(data);
      TornAppendOutcome(w.wal, x, written);
      var (wal, torn) := TornAppend(w.wal, x, written);
      if wal.entries != w.wal.entries {
        AppendGoodLog(w.wal, x, W.Done);
      }
      GrowAll(AllGone(w), wal.entries);
    }
  }

  lemma GameWalKeeps(w: World, c: nat, payload: seq<byte>, nonce: uint32, io: Q.AddIo, room: bool)
    requires Inv(w) && c in w.peers
    ensures Inv(DoGameWal(w, c, payload, nonce, io, room))
    ensures DoGameWal(w, c, payload, nonce, io, room).wal == w.wal
  {
    hide Inv, Reported, EntryFor, PeerInv;
    var p, msg := w.peers[c], Ipc.ParseWalIn(payload);
    if p.running && msg.Ok? && EntryFor(p.me, msg.value, nonce).Ok? {
      var e := EntryFor(p.me, msg.value, nonce).value;
      EntryForNormal(p.me, msg.value, nonce);
      PutReportKeeps(w, c, msg.value.token, e, io, room);
      ReportedFree(Put(w, c, Reported(p, msg.value.token, e, io, room)), w.reported + {e});
    }
  }

  lemma PutReportKeeps(w: World, c: nat, token: uint32, e: Entry, io: Q.AddIo, room: bool)
    requires Inv(w) && c in w.peers && Known(e)
    ensures Inv(Put(w, c, Reported(w.peers[c], token, e, io, room)))
  {
    ReportKeeps(w.wal.entries, w.peers[c], token, e, io, room);
    PutKeeps(w, c, Reported(w.peers[c], token, e, io, room));
  }

  lemma ReportedFree(w: World, reported: set<Entry>)
    requires Inv(w)
    ensures Inv(w.(reported := reported))
  {
  }

  // ---- Every step, every run -----------------------------------------------

  lemma StartPlayers(p: Peer, me: Identity)
    ensures Started(p, me).players == p.players
  {
    hide W.Open, Q.Open;
  }

  lemma CrashPlayers(p: Peer, written: nat)
    ensures Crashed(p, written).players == p.players
  {
    hide CrashedWal;
  }

  lemma DialPlayers(p: Peer)
    ensures Dialed(p).players == p.players
  {
    hide SerializeClientHello;
  }

  lemma DeliverPlayers(p: Peer, io: W.AppendIo, truncateOk: bool)
    requires p.down != []
    ensures Delivered(p, io, truncateOk).players == p.players
  {
    hide OnUplinkPacket, PacketOk;
  }

  lemma PeerStepPlayers(p: Peer, s: Step)
    ensures PeerStep(p, s).players == p.players
  {
    hide Started, Delivered, Crashed, Dialed;
    match s {
      case Start(_, me) => StartPlayers(p, me);
      case Dial(_) => DialPlayers(p);
      case Deliver(_, io, truncateOk) => if p.down != [] { DeliverPlayers(p, io, truncateOk); }
      case ClientCrash(_, written) => CrashPlayers(p, written);
      case _ =>
    }
  }

  lemma PeerStepKeeps(log: seq<Entry>, p: Peer, s: Step)
    requires GoodLog(log) && PeerInv(log, p)
    ensures PeerInv(log, PeerStep(p, s))
    ensures p.core.wal.entries <= PeerStep(p, s).core.wal.entries
  {
    hide PeerInv, Started, Delivered, Crashed, SerializeClientHello;
    match s {
      case Start(_, me) => StartKeeps(log, p, me);
      case Stop(_) => QuietKeeps(log, p, []);
      case TakePending(_) => QuietKeeps(log, p, []);
      case Resend(_, data) => QuietKeeps(log, p, data);
      case Dial(_) => if p.running && !p.up { DialKeeps(log, p); }
      case PumpOut(_, data) => QuietKeeps(log, p, data);
      case OtherOut(_, e, pkt) =>
        if e in p.players && pkt.op != OP_WAL && pkt.op != OP_WAL_ACK { SentKeeps(log, p, e, pkt); }
      case AckOut(_, e, key) => if e in p.players && (e, key) in p.owed { AckedKeeps(log, p, e, key); }
      case Deliver(_, io, truncateOk) => if p.up && p.down != [] { DeliverKeeps(log, p, io, truncateOk); }
      case Disconnect(_) => QuietKeeps(log, p, []);
      case ClientCrash(_, written) => if p.running { CrashKeeps(log, p, written); }
      case _ =>
    }
  }

  lemma PutStepKeeps(w: World, s: Step, c: nat)
    requires Inv(w) && c in w.peers
    ensures Inv(Put(w, c, PeerStep(w.peers[c], s)))
  {
    hide PeerStep;
    PeerStepKeeps(w.wal.entries, w.peers[c], s);
    PeerStepPlayers(w.peers[c], s);
    PutKeeps(w, c, PeerStep(w.peers[c], s));
  }

  lemma JoinKeeps(w: World, c: nat, me: Identity)
    requires Inv(w) && c !in w.peers
    ensures Inv(Put(w, c, NewPeer(me)))
  {
    NewPeerInv(w.wal.entries, me);
    PutKeeps(w, c, NewPeer(me));
  }

  lemma StepKeeps(w: World, s: Step)
    requires Inv(w)
    ensures Inv(Apply(w, s))
    ensures w.wal.entries <= Apply(w, s).wal.entries
  {
    hide Inv, PeerStep, DoGameWal, DoAccept, DoServerRecv, DoStreamOut, DoServerCrash;
    if s.Join? {
      if s.c !in w.peers { JoinKeeps(w, s.c, s.me); }
    } else if s.ServerCrash? {
      ServerCrashKeeps(w, s.c, s.e, s.data, s.written);
    } else if s.c in w.peers {
      var peer := s.c;
      match s {
        case GameWal(c, payload, nonce, io, room) => GameWalKeeps(w, c, payload, nonce, io, room);
        case Accept(c, e) => AcceptKeeps(w, c, e);
        case ServerRecv(c, e, data, io) => RecvKeeps(w, c, e, data, io);
        case StreamOut(c, e) => StreamOutKeeps(w, c, e);
        case ServerDrop(c, e, survive) => DropPlayerKeeps(w, c, e, survive);
        case _ => PutStepKeeps(w, s, peer);
      }
    }
  }

  lemma {:induction false} RunKeeps(w: World, steps: seq<Step>)
    requires Inv(w)
    ensures Inv(Run(w, steps))
    ensures w.wal.entries <= Run(w, steps).wal.entries
    decreases |steps|
  {
    if steps != [] {
      StepKeeps(w, steps[0]);
      RunKeeps(Apply(w, steps[0]), steps[1..]);
    }
  }

  lemma DeliverPuts(w: World, c: nat, truncateOk: bool)
    requires c in w.peers && w.peers[c].up && w.peers[c].down != []
    ensures Apply(w, Deliver(c, W.Done, truncateOk)) == Put(w, c, Delivered(w.peers[c], W.Done, truncateOk))
  {
    hide Delivered;
  }

  /** What the invariant says of one client. */
  lemma PeerOf(w: World, c: nat)
    requires Inv(w) && c in w.peers
    ensures GoodLog(w.wal.entries) && PeerInv(w.wal.entries, w.peers[c])
    ensures |w.peers[c].core.wal.entries| <= |w.wal.entries|
    ensures |w.peers[c].core.wal.entries| == |w.wal.entries| ==> w.peers[c].core.wal.entries == w.wal.entries
  {
  }
}
