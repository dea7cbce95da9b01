/** What single steps do, said without the functions that do it: when the sets in which Theorems speaks
    of the past grow, what a report, a packet and a connection do to a client, and what the server takes. */
module Steps {
  import opened Wrappers
  import opened Bytes
  import opened WalEntry
  import opened Wire
  import opened Packets
  import opened ClientState
  import opened Protocol
  import opened Links
  import opened Safety
  import opened Delivery
  import opened Theorems
  import Ipc
  import Q = QueueState
  import W = WalState

  // ---- Reports -------------------------------------------------------------

  /** The game of a running client reports this entry. */
  predicate Reports(p: Peer, s: Step, c: nat, e: Entry) {
    && s.GameWal? && s.c == c && p.running
    && Ipc.ParseWalIn(s.payload).Ok? && EntryFor(p.me, Ipc.ParseWalIn(s.payload).value, s.nonce) == Ok(e)
  }

  predicate ReportsKey(p: Peer, s: Step, c: nat, key: Key) {
    && s.GameWal? && s.c == c && p.running
    && Ipc.ParseWalIn(s.payload).Ok?
    && var e := EntryFor(p.me, Ipc.ParseWalIn(s.payload).value, s.nonce);
       e.Ok? && DedupKey(e.value) == Ok(key)
  }

  /** What a report does to its client, and that nothing else happens. */
  lemma ReportEffect(w: World, s: Step, c: nat, e: Entry)
    requires c in w.peers && Reports(w.peers[c], s, c, e)
    ensures Known(e) && c in Apply(w, s).peers
    ensures var p, w', q := w.peers[c], Apply(w, s), Apply(w, s).peers[c];
            && w' == Put(w, c, q).(reported := w.reported + {e})
            && q.core == p.core.(queue := Q.AddState(p.core.queue, KeyOf(e), W.Payload(e), s.addIo))
            && q.outbox == p.outbox + (if s.room then {W.Payload(e)} else {})
            && q.toGame == p.toGame + [AckMessage(Ipc.ParseWalIn(s.payload).value.token)]
            && q.me == p.me && q.running && q.walTorn == p.walTorn && q.resend == p.resend
            && q.epoch == p.epoch && q.up == p.up && q.down == p.down && q.uplink == p.uplink
            && q.hellos == p.hellos && q.players == p.players && q.owed == p.owed && q.salvaged == p.salvaged
  {
    hide EntryFor, Q.AddState, Q.Untorn, Held, KeyOf, W.Payload;
    EntryForNormal(w.peers[c].me, Ipc.ParseWalIn(s.payload).value, s.nonce);
  }

  lemma NoReportNoEffect(w: World, s: Step)
    requires s.GameWal? && s.c in w.peers && forall e :: !Reports(w.peers[s.c], s, s.c, e)
    ensures Apply(w, s) == w
  {
    hide EntryFor, Reported;
    var p := w.peers[s.c];
    if p.running && Ipc.ParseWalIn(s.payload).Ok? {
      var r := EntryFor(p.me, Ipc.ParseWalIn(s.payload).value, s.nonce);
      assert r.Ok? ==> Reports(p, s, s.c, r.value);
    }
  }

  /** An entry is reported when a running client's game reports it, and at no other time. */
  lemma ReportedIff(w: World, s: Step, e: Entry)
    ensures e in Apply(w, s).reported
            <==> e in w.reported || (s.GameWal? && s.c in w.peers && Reports(w.peers[s.c], s, s.c, e))
  {
    hide PeerStep, DoAccept, DoServerRecv, DoStreamOut, DropPlayer, DoServerCrash, Reported, EntryFor;
    if ServerStep(s) { ServerStepClients(w, s); }
  }

  /** A key is accepted when an entry of it is reported and the queue has something under it or the write
      succeeds, which is when `Add` returns nil; and it stays accepted. */
  lemma AcceptedIff(w: World, s: Step, c: nat, key: Key)
    requires c in w.peers
    ensures c in Apply(w, s).peers
    ensures var p := w.peers[c];
            key in Apply(w, s).peers[c].accepted
            <==> key in p.accepted
                 || (ReportsKey(p, s, c, key) && (key in p.core.queue.live || s.addIo == Q.Added))
  {
    hide Apply, PeerStep, DoGameWal, ReportsKey;
    StepOf(w, s, c);
    KeyReported(w.peers[c], s, c, key);
    if !ServerStep(s) && s.c == c && !s.Join? {
      if s.GameWal? {
        GameWalAccepts(w, s, c, key);
      } else {
        PeerStepPast(w.peers[c], s);
      }
    }
  }

  lemma KeyReported(p: Peer, s: Step, c: nat, key: Key)
    ensures ReportsKey(p, s, c, key) ==> s.GameWal? && s.c == c
  {
  }

  lemma GameWalAccepts(w: World, s: Step, c: nat, key: Key)
    requires s.GameWal? && s.c == c && c in w.peers
    ensures var p, w' := w.peers[c], DoGameWal(w, c, s.payload, s.nonce, s.addIo, s.room);
            && c in w'.peers
            && (key in w'.peers[c].accepted <==>
                  key in p.accepted
                  || (ReportsKey(p, s, c, key) && (key in p.core.queue.live || s.addIo == Q.Added)))
  {
    hide EntryFor, Held, KeyOf, Q.AddState, Q.Untorn;
    var p, msg := w.peers[c], Ipc.ParseWalIn(s.payload);
    if p.running && msg.Ok? && EntryFor(p.me, msg.value, s.nonce).Ok? {
      var e := EntryFor(p.me, msg.value, s.nonce).value;
      EntryForNormal(p.me, msg.value, s.nonce);
      KeyKnown(e);
    }
  }

  /** No other step of a client accepts anything, and what was before a torn write stays noted. */
  lemma PeerStepPast(p: Peer, s: Step)
    ensures var q := PeerStep(p, s); q.accepted == p.accepted && q.early == p.early && q.whole == p.whole
  {
    if s.Start? {
      hide W.Open, Q.Load, Held;
    } else if s.Deliver? {
      hide OnUplinkPacket, PacketOk;
    } else {
      hide PeerStep;
      QuietQueue(p, s);
    }
  }

  // ---- Torn writes ---------------------------------------------------------

  /** The step leaves part of a record in this client's queue file. */
  predicate Tears(p: Peer, s: Step, c: nat) {
    && s.GameWal? && s.c == c && p.running
    && Ipc.ParseWalIn(s.payload).Ok?
    && var e := EntryFor(p.me, Ipc.ParseWalIn(s.payload).value, s.nonce);
       e.Ok? && Known(e.value) && KeyOf(e.value) !in p.core.queue.live
       && 0 < |Q.Left(KeyOf(e.value), W.Payload(e.value), s.addIo)| < |Q.Record(KeyOf(e.value), W.Payload(e.value))|
  }

  /** The queue file is clean after a step if it is empty, or the step started the client, or it was clean
      and the step tore no write. What was in the file and safe before the first tear is noted then. */
  lemma CleanIff(w: World, s: Step, c: nat)
    requires Reached(w) && c in w.peers
    ensures c in Apply(w, s).peers
    ensures var p, q := w.peers[c], Apply(w, s).peers[c];
            && (q.clean <==> q.core.queue.file == []
                             || (s.Start? && s.c == c && !p.running && CanStart(p))
                             || (p.clean && !Tears(p, s, c)))
            && q.whole == (if p.clean && Tears(p, s, c) then p.core.queue.file else p.whole)
            && q.early == (if p.clean && Tears(p, s, c) then p.accepted - p.dropped else p.early)
  {
    hide Apply, PeerStep, DoGameWal, Tears, CanStart, Reached;
    var p := w.peers[c];
    ReachedPeer(w, c);
    EmptyIsClean(w.wal.entries, p);
    StepOf(w, s, c);
    OnlyReportsTear(p, s, c);
    if !ServerStep(s) && s.c == c && !s.Join? {
      if s.GameWal? {
        GameWalCleans(w, s, c);
      } else {
        PeerStepPast(p, s);
        PeerStepCleans(w.wal.entries, p, s);
      }
    }
  }

  lemma OnlyReportsTear(p: Peer, s: Step, c: nat)
    ensures Tears(p, s, c) ==> s.GameWal? && s.c == c
  {
  }

  lemma GameWalCleans(w: World, s: Step, c: nat)
    requires s.GameWal? && s.c == c && c in w.peers
    requires w.peers[c].core.queue.file == [] ==> w.peers[c].clean
    ensures var p, w' := w.peers[c], DoGameWal(w, c, s.payload, s.nonce, s.addIo, s.room);
            && c in w'.peers
            && var q := w'.peers[c];
               && (q.clean <==> q.core.queue.file == [] || (p.clean && !Tears(p, s, c)))
               && q.whole == (if p.clean && Tears(p, s, c) then p.core.queue.file else p.whole)
               && q.early == (if p.clean && Tears(p, s, c) then p.accepted - p.dropped else p.early)
  {
    hide EntryFor, Held, KeyOf, W.Payload, Reported;
    var p, msg := w.peers[c], Ipc.ParseWalIn(s.payload);
    if p.running && msg.Ok? && EntryFor(p.me, msg.value, s.nonce).Ok? {
      var e := EntryFor(p.me, msg.value, s.nonce).value;
      EntryForNormal(p.me, msg.value, s.nonce);
      ReportCleans(p, msg.value.token, e, s.addIo, s.room);
    }
  }

  lemma ReportCleans(p: Peer, token: uint32, e: Entry, io: Q.AddIo, room: bool)
    requires Known(e) && (p.core.queue.file == [] ==> p.clean)
    ensures var q := Reported(p, token, e, io, room);
            var left := |Q.Left(KeyOf(e), W.Payload(e), io)|;
            var tears := KeyOf(e) !in p.core.queue.live && 0 < left < |Q.Record(KeyOf(e), W.Payload(e))|;
            && (q.clean <==> q.core.queue.file == [] || (p.clean && !tears))
            && q.whole == (if p.clean && tears then p.core.queue.file else p.whole)
            && q.early == (if p.clean && tears then p.accepted - p.dropped else p.early)
  {
    hide Held, KeyOf, W.Payload, Q.Left, Q.Record, Q.AddState;
    Q.LeftIsPrefix(KeyOf(e), W.Payload(e), io);
    Q.AddOutcome(p.core.queue, KeyOf(e), W.Payload(e), io);
  }

  lemma PeerStepCleans(log: seq<Entry>, p: Peer, s: Step)
    requires GoodLog(log) && PeerInv(log, p) && QueueInv(log, p) && !s.GameWal?
    ensures var q := PeerStep(p, s);
            q.clean <==> q.core.queue.file == [] || (s.Start? && !p.running && CanStart(p)) || p.clean
  {
    hide GoodLog, PeerInv, Delivered, PacketOk, W.Open, Q.Load;
    EmptyIsClean(log, p);
    if s.Deliver? {
      if p.up && p.down != [] {
        var id, acked := DeliverQueue(log, p, s.io, s.truncateOk);
      }
    } else if !s.Start? {
      hide PeerStep;
      QuietQueue(p, s);
    }
  }

  // ---- Packets from the server ---------------------------------------------

  /** A client stays connected after the packet in front of it unless handling fails, and handling fails
      for no other reason than these; then log and queue are as they were. A packet that is neither a log
      entry nor an acknowledgement leaves them alone in any case. */
  lemma DeliverUpIff(w: World, c: nat, io: W.AppendIo, truncateOk: bool)
    requires Reached(w) && c in w.peers && w.peers[c].up && w.peers[c].down != []
    ensures var p, w' := w.peers[c], Apply(w, Deliver(c, io, truncateOk));
            var pkt := p.down[0];
            && c in w'.peers && w'.peers[c].running
            && (!w'.peers[c].up <==>
                  || (pkt.op == OP_WAL && io != W.Done)
                  || (pkt.op == OP_WAL_ACK && |pkt.data| != 16)
                  || (pkt.op == OP_POSITION && |pkt.data| < 34))
            && (w'.peers[c].up ==> w'.peers[c].down == p.down[1..])
            && (!w'.peers[c].up || (pkt.op != OP_WAL && pkt.op != OP_WAL_ACK) ==> w'.peers[c].core == p.core)
  {
    hide Reached, Apply, W.AppendState, W.AppendResult, Parse, Q.AckState, QueueInv, OriginInv, W.Load;
    ReachedPeer(w, c);
    var p := w.peers[c];
    DeliverIs(w, c, io, truncateOk);
    PacketEffect(p.core, p.down[0], io, truncateOk);
    if p.down[0].op == OP_WAL {
      DeliverWal(w.wal.entries, p, io);
    }
  }

  lemma DeliverIs(w: World, c: nat, io: W.AppendIo, truncateOk: bool)
    requires c in w.peers && w.peers[c].up && w.peers[c].down != []
    ensures Apply(w, Deliver(c, io, truncateOk)) == Put(w, c, Delivered(w.peers[c], io, truncateOk))
  {
    hide Delivered;
  }

  // ---- Connections ---------------------------------------------------------

  /** A new connection: its hello is the one of this player and names the length of its log; nothing is
      left in the channels. */
  lemma DialSays(w: World, c: nat)
    requires c in w.peers && w.peers[c].running && !w.peers[c].up
    ensures var p, w' := w.peers[c], Apply(w, Dial(c));
            && c in w'.peers
            && var q := w'.peers[c];
               && q.epoch == p.epoch + 1 && q.up && q.down == [] && q.outbox == {} && q.resend == p.resend
               && q.epoch in q.hellos && ParseClientHello(q.hellos[q.epoch]).Ok?
               && q.core == p.core && q.players == p.players && q.uplink == p.uplink
               && var h := ParseClientHello(q.hellos[q.epoch]).value;
                  && h.playerID == p.me.playerID && h.playerName == p.me.playerName && h.worldID == p.me.worldID
                  && h.walIndex == p.core.wal.count
  {
    hide SerializeClientHello, ParseClientHello;
    ClientHelloRoundTrip(Hello(w.peers[c]));
  }

  /** What goes out on a connection is what is in the channel and can be sent; data too long end it. */
  lemma PumpSends(w: World, c: nat, data: seq<byte>)
    requires c in w.peers && w.peers[c].up && data in w.peers[c].outbox
    ensures var p, w' := w.peers[c], Apply(w, PumpOut(c, data));
            && c in w'.peers && w'.peers[c].core == p.core
            && w'.peers[c].uplink == p.uplink + (if |data| <= 65535 then {(p.epoch, data)} else {})
            && (w'.peers[c].up <==> |data| <= 65535)
  {
  }

  /** The resend loop offers exactly what is in the queue. */
  lemma ResendOffers(w: World, c: nat, data: seq<byte>)
    requires c in w.peers && w.peers[c].running && Parse(data).Ok?
    ensures var p, w1 := w.peers[c], Apply(w, TakePending(c));
            var w2 := Apply(w1, Resend(c, data));
            && c in w2.peers && w2.peers[c].core == p.core
            && w2.peers[c].outbox == p.outbox + if data in p.core.queue.live.Values then {data} else {}
  {
    hide Parse;
    var live := w.peers[c].core.queue.live;
    assert (set k | k in live :: live[k]) == live.Values;
  }

  /** What the server sends on the connection in use arrives behind what is there; an acknowledgement
      only once, and only if it is owed. */
  lemma SendsArrive(w: World, c: nat, e: nat, pkt: Packet, key: Key)
    requires c in w.peers && w.peers[c].up && w.peers[c].epoch == e && e in w.peers[c].players
    ensures var p, w1, w2 := w.peers[c], Apply(w, OtherOut(c, e, pkt)), Apply(w, AckOut(c, e, key));
            && c in w1.peers && c in w2.peers && w1.peers[c].core == p.core == w2.peers[c].core
            && (pkt.op != OP_WAL && pkt.op != OP_WAL_ACK ==> w1.peers[c].down == p.down + [pkt])
            && w2.peers[c].down == p.down + (if (e, key) in p.owed then [Packet(OP_WAL_ACK, key)] else [])
            && w2.peers[c].owed == p.owed - {(e, key)}
  {
  }

  /** A client is greeted if and only if its hello is long enough and the session is open or its file can
      be read; the player starts at the index the hello names. */
  lemma AcceptIff(w: World, c: nat, e: nat)
    requires c in w.peers && e in w.peers[c].hellos && e !in w.peers[c].players
    ensures var p, w' := w.peers[c], Apply(w, Accept(c, e));
            && c in w'.peers && e !in w'.peers[c].hellos
            && (e in w'.peers[c].players <==> |p.hellos[e]| >= 65 && (w.open || W.Load(w.wal.file).Ok?))
            && (e in w'.peers[c].players ==>
                  w'.open && w'.peers[c].players == p.players[e := FromLE32(p.hellos[e][61..65])])
            && w'.peers[c].core == p.core && w'.peers[c].down == p.down
  {
    hide W.Load;
    HelloParsesIff(w.peers[c].hellos[e]);
  }

  /** A client that starts is the player at its game now, with the log it had and what its queue file
      gives back, and nothing in its channels. */
  lemma StartEffect(w: World, c: nat, me: Identity)
    requires Reached(w) && c in w.peers && !w.peers[c].running && CanStart(w.peers[c])
    ensures var p, w' := w.peers[c], Apply(w, Start(c, me));
            && c in w'.peers
            && var q := w'.peers[c];
               && q == p.(me := me, running := true, core := q.core, clean := true, dropped := q.dropped,
                          salvaged := q.salvaged)
               && q.core.wal.entries == p.core.wal.entries
               && Q.Load(p.core.queue.file) == Ok(q.core.queue.live) && q.core.queue.file == p.core.queue.file
  {
    hide Reached, W.Open, Q.Load, Held, PeerInv, GoodLog;
    ReachedPeer(w, c);
    StartKeeps(w.wal.entries, w.peers[c], me);
    StartPuts(w, c, me);
  }

  /** A client that stops keeps its files and loses what was in its channels. */
  lemma StopEffect(w: World, c: nat)
    requires c in w.peers
    ensures var p, w' := w.peers[c], Apply(w, Stop(c));
            && c in w'.peers
            && w'.peers[c] == p.(running := false, up := false, down := [], resend := {}, outbox := {})
  {
  }

  // ---- What the server takes -----------------------------------------------

  /** The server keeps a player whose packet it takes if and only if the packet parses and the entry is
      there already or can be written. Then the key is owed and in the log. */
  lemma ServerTakesIff(w: World, c: nat, e: nat, data: seq<byte>, io: W.AppendIo)
    requires Reached(w) && Receives(w, c, e, data)
    ensures var w' := Apply(w, ServerRecv(c, e, data, io));
            && c in w'.peers
            && (e in w'.peers[c].players <==>
                  Parse(data).Ok? && (io == W.Done || InEntries(w.wal.entries, Parse(data).value)))
            && (e in w'.peers[c].players ==>
                  && Known(Parse(data).value)
                  && w'.peers[c].owed == w.peers[c].owed + {(e, KeyOf(Parse(data).value))}
                  && w'.wal.entries == if InEntries(w.wal.entries, Parse(data).value) then w.wal.entries
                                       else w.wal.entries + [Parse(data).value])
            && (e !in w'.peers[c].players ==> w'.wal == w.wal)
  {
    hide Reached, SystemInv, Parse, Inv, InEntries, W.Sound;
    ReachedInv(w);
    SystemImpliesInv(w);
    PlayerMeansOpen(w, c, e);
    TakesIff(w, c, e, data, io);
  }

  lemma TakesIff(w: World, c: nat, e: nat, data: seq<byte>, io: W.AppendIo)
    requires Receives(w, c, e, data) && W.Sound(w.wal)
    ensures var w' := Apply(w, ServerRecv(c, e, data, io));
            && c in w'.peers
            && (e in w'.peers[c].players <==>
                  Parse(data).Ok? && (io == W.Done || InEntries(w.wal.entries, Parse(data).value)))
            && (e in w'.peers[c].players ==>
                  && Known(Parse(data).value)
                  && w'.peers[c].owed == w.peers[c].owed + {(e, KeyOf(Parse(data).value))}
                  && w'.wal.entries == if InEntries(w.wal.entries, Parse(data).value) then w.wal.entries
                                       else w.wal.entries + [Parse(data).value])
            && (e !in w'.peers[c].players ==> w'.wal == w.wal)
  {
    hide Parse, W.AppendState, W.AppendResult, W.Sound, DropPlayer, KeyOf, DedupKey;
    DropRemoves(w, c, e);
    if Parse(data).Ok? {
      ParsedKnown(data);
      W.AppendOutcome(w.wal, Parse(data).value, io);
    }
  }

  lemma DropRemoves(w: World, c: nat, e: nat)
    requires c in w.peers
    ensures var w' := DropPlayer(w, c, e, |w.peers[c].down|);
            c in w'.peers && e !in w'.peers[c].players && w'.wal == w.wal
  {
  }

  /** The log has an entry of the same key. */
  ghost predicate InEntries(log: seq<Entry>, x: Entry) {
    exists y :: y in log && DedupKey(y) == DedupKey(x)
  }

  lemma SystemImpliesInv(w: World)
    requires SystemInv(w)
    ensures Inv(w)
  {
  }
}
