/** The log invariant of the protocol: every client's log is a prefix of the server's, and what is in
    flight to it is exactly what comes next. */
module Links {
  import opened Wrappers
  import opened Bytes
  import opened WalEntry
  import opened Wire
  import opened Packets
  import opened ClientState
  import opened Protocol
  import Q = QueueState
  import W = WalState

  /** How many log packets a downlink holds. */
  function Carried(down: seq<Packet>): nat {
    if down == [] then 0
    else Carried(down[1..]) + if down[0].op == OP_WAL then 1 else 0
  }

  predicate TrueAck(log: seq<Entry>, pkt: Packet) {
    |pkt.data| == 16 && pkt.data in W.KeySet(log)
  }

  /** The downlink of a client that holds the first `k` entries of the log: its log packets are the
      entries from `k` on, each with its index, and its acknowledgements name keys of the log. */
  predicate DownInv(log: seq<Entry>, k: nat, down: seq<Packet>)
    requires W.AllKnown(log)
    decreases |down|
  {
    if down == [] then k <= |log| < UINT32_MODULUS
    else if down[0].op == OP_WAL then
      k < |log| < UINT32_MODULUS && down[0] == WalPacket(k, log[k]) && DownInv(log, k + 1, down[1..])
    else
      (down[0].op == OP_WAL_ACK ==> TrueAck(log, down[0])) && DownInv(log, k, down[1..])
  }

  predicate HelloNames(hello: seq<byte>, k: nat) {
    var h := ParseClientHello(hello);
    h.Ok? && h.value.walIndex == k
  }

  /** A server log, as far as its contents go. */
  predicate GoodLog(log: seq<Entry>) {
    && W.AllNormal(log) && W.AllKnown(log)
    && W.NoRepeats(log)
    && |log| < UINT32_MODULUS
  }

  /** The live connection of a client that holds the first `k` entries. */
  predicate LinkInv(log: seq<Entry>, k: nat, epoch: nat, down: seq<Packet>,
                    players: map<nat, uint32>, hellos: map<nat, seq<byte>>)
    requires W.AllKnown(log)
  {
    && DownInv(log, k, down)
    && (epoch in players ==> players[epoch] == k + Carried(down))
    && (epoch in hellos ==> down == [] && HelloNames(hellos[epoch], k))
  }

  /** No connection has a number the client has not used yet, and none is greeted twice. */
  predicate EpochInv(epoch: nat, players: map<nat, uint32>, hellos: map<nat, seq<byte>>) {
    && (forall e <- players :: e <= epoch && e !in hellos)
    && (forall e <- hellos :: e <= epoch)
  }

  /** A client's log is a prefix of the server's; its file agrees, or no longer loads. */
  predicate WalInv(log: seq<Entry>, wal: W.State, torn: bool) {
    && wal.entries <= log
    && (if torn then W.Open(wal.file).Err? else W.Sound(wal))
  }

  predicate PeerInv(log: seq<Entry>, p: Peer)
    requires W.AllKnown(log)
  {
    && WalInv(log, p.core.wal, p.walTorn)
    && (p.running ==> !p.walTorn)
    && EpochInv(p.epoch, p.players, p.hellos)
    && (forall x <- p.owed :: x.1 in W.KeySet(log))
    && (if p.up then p.running && LinkInv(log, |p.core.wal.entries|, p.epoch, p.down, p.players, p.hellos)
        else p.down == [])
  }

  predicate ServerInv(w: World) {
    && GoodLog(w.wal.entries)
    && (if w.torn then !w.open && W.Open(w.wal.file).Err? else W.Sound(w.wal))
    && (w.open <==> SomeonePlays(w.peers))
  }

  predicate Inv(w: World) {
    && ServerInv(w)
    && forall c <- w.peers :: PeerInv(w.wal.entries, w.peers[c])
  }

  // ---- Downlinks -----------------------------------------------------------

  lemma {:induction false} DownConcat(log: seq<Entry>, k: nat, xs: seq<Packet>, ys: seq<Packet>)
    requires W.AllKnown(log)
    ensures Carried(xs + ys) == Carried(xs) + Carried(ys)
    ensures DownInv(log, k, xs + ys) <==> DownInv(log, k, xs) && DownInv(log, k + Carried(xs), ys)
    decreases |xs|
  {
    if xs == [] {
      assert xs + ys == ys;
      if DownInv(log, k, ys) {
        DownBound(log, k, ys);
      }
    } else {
      assert (xs + ys)[1..] == xs[1..] + ys;
      DownConcat(log, if xs[0].op == OP_WAL then k + 1 else k, xs[1..], ys);
    }
  }

  lemma {:induction false} DownBound(log: seq<Entry>, k: nat, down: seq<Packet>)
    requires W.AllKnown(log) && DownInv(log, k, down)
    ensures k + Carried(down) <= |log| < UINT32_MODULUS
    decreases |down|
  {
    if down != [] {
      DownBound(log, if down[0].op == OP_WAL then k + 1 else k, down[1..]);
    }
  }

  lemma DownPrefix(log: seq<Entry>, k: nat, down: seq<Packet>, n: nat)
    requires W.AllKnown(log) && DownInv(log, k, down) && n <= |down|
    ensures DownInv(log, k, down[..n])
  {
    DownConcat(log, k, down[..n], down[n..]);
    assert down == down[..n] + down[n..];
  }

  lemma {:induction false} DownGrow(log: seq<Entry>, log': seq<Entry>, k: nat, down: seq<Packet>)
    requires W.AllKnown(log) && W.AllKnown(log') && log <= log' && |log'| < UINT32_MODULUS
    requires DownInv(log, k, down)
    ensures DownInv(log', k, down)
    decreases |down|
  {
    assert W.KeySet(log) <= W.KeySet(log');
    if down != [] {
      DownGrow(log, log', if down[0].op == OP_WAL then k + 1 else k, down[1..]);
    }
  }

  lemma DownWal(log: seq<Entry>, k: nat, down: seq<Packet>)
    requires W.AllKnown(log) && DownInv(log, k, down)
    requires k + Carried(down) < |log|
    ensures var i := k + Carried(down);
            |log| < UINT32_MODULUS
            && DownInv(log, k, down + [WalPacket(i, log[i])])
            && Carried(down + [WalPacket(i, log[i])]) == Carried(down) + 1
  {
    DownBound(log, k, down);
    DownConcat(log, k, down, [WalPacket(k + Carried(down), log[k + Carried(down)])]);
  }

  lemma DownOther(log: seq<Entry>, k: nat, down: seq<Packet>, pkt: Packet)
    requires W.AllKnown(log) && DownInv(log, k, down)
    requires pkt.op != OP_WAL
    requires pkt.op == OP_WAL_ACK ==> TrueAck(log, pkt)
    ensures DownInv(log, k, down + [pkt]) && Carried(down + [pkt]) == Carried(down)
  {
    DownBound(log, k, down);
    DownConcat(log, k, down, [pkt]);
  }

  // ---- A longer log --------------------------------------------------------

  /** What holds of a client stays true when the server's log grows. */
  lemma GrowKeepsPeerInv(log: seq<Entry>, log': seq<Entry>, p: Peer)
    requires W.AllKnown(log) && W.AllKnown(log') && log <= log' && |log'| < UINT32_MODULUS
    requires PeerInv(log, p)
    ensures PeerInv(log', p)
  {
    assert W.KeySet(log) <= W.KeySet(log');
    if p.up {
      DownGrow(log, log', |p.core.wal.entries|, p.down);
    }
  }

  // ---- Client steps --------------------------------------------------------

  lemma NewPeerInv(log: seq<Entry>, me: Identity)
    requires W.AllKnown(log)
    ensures PeerInv(log, NewPeer(me))
  {
  }

  lemma StartKeeps(log: seq<Entry>, p: Peer, me: Identity)
    requires GoodLog(log) && PeerInv(log, p)
    ensures PeerInv(log, Started(p, me))
    ensures Started(p, me).core.wal.entries == p.core.wal.entries
  {
    if Started(p, me) != p {
      PrefixNormal(log, p.core.wal.entries);
      W.ReopenSame(p.core.wal);
      W.OpenSound(p.core.wal.file);
    }
  }

  lemma PrefixNormal(log: seq<Entry>, es: seq<Entry>)
    requires W.AllNormal(log) && es <= log
    ensures W.AllNormal(es) && W.AllKnown(es)
  {
    forall e <- es ensures IsNormal(e) {
      var i :| 0 <= i < |es| && es[i] == e;
      assert e == log[i];
    }
  }

  lemma ReportKeeps(log: seq<Entry>, p: Peer, token: uint32, e: Entry, io: Q.AddIo, room: bool)
    requires W.AllKnown(log) && Known(e) && PeerInv(log, p)
    ensures PeerInv(log, Reported(p, token, e, io, room))
  {
  }

  lemma LinkDial(log: seq<Entry>, k: nat, epoch: nat, players: map<nat, uint32>,
                 hellos: map<nat, seq<byte>>, hello: seq<byte>)
    requires W.AllKnown(log) && k <= |log| < UINT32_MODULUS
    requires EpochInv(epoch, players, hellos) && HelloNames(hello, k)
    ensures EpochInv(epoch + 1, players, hellos[epoch + 1 := hello])
    ensures LinkInv(log, k, epoch + 1, [], players, hellos[epoch + 1 := hello])
  {
  }

  lemma DialKeeps(log: seq<Entry>, p: Peer)
    requires GoodLog(log) && PeerInv(log, p) && p.running && !p.up
    ensures PeerInv(log, Dialed(p))
  {
    hide SerializeClientHello, HelloNames, W.Load;
    HelloNamesCount(p);
    LinkDial(log, |p.core.wal.entries|, p.epoch, p.players, p.hellos, SerializeClientHello(Hello(p)));
  }

  lemma HelloNamesCount(p: Peer)
    ensures HelloNames(SerializeClientHello(Hello(p)), p.core.wal.count)
  {
    ClientHelloRoundTrip(Hello(p));
  }

  /** A packet in flight parses back to the entry the log has at its index. */
  lemma WalPacketParses(index: uint32, e: Entry)
    requires IsNormal(e)
    ensures ParseServerWal(WalPacket(index, e).data) == Ok(ServerWal(index, e))
  {
    ServerWalRoundTrip(ServerWal(index, e));
    assert SerializeServerWal(ServerWal(index, e)) == Ok(WalPacket(index, e).data);
  }

  /** The next entry of the log is new to a client that holds the log up to it. */
  lemma NextIsNew(log: seq<Entry>, k: nat)
    requires GoodLog(log) && k < |log|
    ensures W.AllKnown(log[..k]) && KeyOf(log[k]) !in W.KeySet(log[..k])
  {
    PrefixNormal(log, log[..k]);
  }

  /** A log packet in front of the queue is the next entry, and handling it appends that entry. */
  lemma DeliverWal(log: seq<Entry>, p: Peer, io: W.AppendIo)
    requires GoodLog(log) && PeerInv(log, p)
    requires p.up && p.down != [] && p.down[0].op == OP_WAL
    ensures var k := |p.core.wal.entries|;
            && k < |log|
            && ParseServerWal(p.down[0].data) == Ok(ServerWal(k, log[k]))
            && (PacketOk(p.core, p.down[0], io) <==> io == W.Done)
            && (io == W.Done ==> W.AppendState(p.core.wal, log[k], io) == W.Appended(p.core.wal, log[k]))
  {
    var k := |p.core.wal.entries|;
    WalPacketParses(k, log[k]);
    NextIsNew(log, k);
    assert p.core.wal.entries == log[..k];
  }

  lemma DeliverWalEffect(log: seq<Entry>, p: Peer, truncateOk: bool)
    requires GoodLog(log) && PeerInv(log, p)
    requires p.up && p.down != [] && p.down[0].op == OP_WAL
    ensures var k, q := |p.core.wal.entries|, Delivered(p, W.Done, truncateOk);
            && k < |log|
            && q == p.(core := q.core, down := p.down[1..], clean := q.clean)
            && q.core == Core(W.Appended(p.core.wal, log[k]), Q.AckState(p.core.queue, KeyOf(log[k]), truncateOk))
  {
    DeliverWal(log, p, W.Done);
  }

  lemma DeliverWalKeeps(log: seq<Entry>, p: Peer, truncateOk: bool)
    requires GoodLog(log) && PeerInv(log, p)
    requires p.up && p.down != [] && p.down[0].op == OP_WAL
    ensures PeerInv(log, Delivered(p, W.Done, truncateOk))
    ensures p.core.wal.entries <= Delivered(p, W.Done, truncateOk).core.wal.entries
    ensures |Delivered(p, W.Done, truncateOk).core.wal.entries| == |p.core.wal.entries| + 1
  {
    hide Delivered, WalPacket, W.Load, W.KeySet;
    var k, q := |p.core.wal.entries|, Delivered(p, W.Done, truncateOk);
    DeliverWalEffect(log, p, truncateOk);
    assert WalInv(log, q.core.wal, q.walTorn) by {
      W.AppendedSound(p.core.wal, log[k]);
      assert p.core.wal.entries == log[..k];
      assert log[..k] + [log[k]] == log[..k + 1];
    }
  }

  lemma DeliverOtherEffect(p: Peer, io: W.AppendIo, truncateOk: bool)
    requires p.down != [] && p.down[0].op != OP_WAL
    ensures var q := Delivered(p, io, truncateOk);
            q.core.wal == p.core.wal
            && (q == Disconnected(p) || q == p.(core := q.core, down := p.down[1..], clean := q.clean))
  {
  }

  lemma DeliverOtherKeeps(log: seq<Entry>, p: Peer, io: W.AppendIo, truncateOk: bool)
    requires GoodLog(log) && PeerInv(log, p)
    requires p.up && p.down != [] && p.down[0].op != OP_WAL
    ensures PeerInv(log, Delivered(p, io, truncateOk))
    ensures Delivered(p, io, truncateOk).core.wal == p.core.wal
  {
    DeliverOtherEffect(p, io, truncateOk);
  }

  lemma DeliverKeeps(log: seq<Entry>, p: Peer, io: W.AppendIo, truncateOk: bool)
    requires GoodLog(log) && PeerInv(log, p) && p.up && p.down != []
    ensures PeerInv(log, Delivered(p, io, truncateOk))
    ensures p.core.wal.entries <= Delivered(p, io, truncateOk).core.wal.entries
  {
    if p.down[0].op != OP_WAL {
      DeliverOtherKeeps(log, p, io, truncateOk);
    } else {
      DeliverWal(log, p, io);
      if io == W.Done {
        DeliverWalKeeps(log, p, truncateOk);
      }
    }
  }

  /** A log that dies while appending is as before, or one entry longer, or no longer loads. */
  lemma TornAppendOutcome(s: W.State, e: Entry, written: nat)
    requires W.Sound(s) && W.AllNormal(s.entries) && IsNormal(e)
    ensures var (t, torn) := TornAppend(s, e, written);
            && t.entries == (if t == W.Appended(s, e) then s.entries + [e] else s.entries)
            && (t.entries != s.entries ==> KeyOf(e) !in s.keys)
            && (torn <==> KeyOf(e) !in s.keys && 0 < written < |W.Record(e)|)
            && (t.entries != s.entries <==> KeyOf(e) !in s.keys && written >= |W.Record(e)|)
            && (if torn then W.Open(t.file).Err? else W.Sound(t))
  {
    var r := W.Record(e);
    if KeyOf(e) !in s.keys && written != 0 {
      if written >= |r| {
        W.AppendedSound(s, e);
      } else {
        W.LoadTorn(s.file, e, written);
      }
    }
  }

  /** A crash leaves the log as it was, or with the next entry, or unreadable. */
  lemma CrashEffect(log: seq<Entry>, p: Peer, written: nat) returns (wal: W.State, torn: bool)
    requires GoodLog(log) && PeerInv(log, p)
    requires p.up && p.down != [] && p.down[0].op == OP_WAL
    ensures |p.core.wal.entries| < |log|
    ensures wal.entries == p.core.wal.entries || wal.entries == p.core.wal.entries + [log[|p.core.wal.entries|]]
    ensures if torn then W.Open(wal.file).Err? else W.Sound(wal)
    ensures Crashed(p, written) == Stopped(p.(core := p.core.(wal := wal), walTorn := torn))
  {
    DeliverWal(log, p, W.Done);
    var e := log[|p.core.wal.entries|];
    PrefixNormal(log, p.core.wal.entries);
    TornAppendOutcome(p.core.wal, e, written);
    wal, torn := TornAppend(p.core.wal, e, written).0, TornAppend(p.core.wal, e, written).1;
  }

  /** A client that stops with its log as it was or one entry longer. */
  lemma StoppedWith(log: seq<Entry>, p: Peer, wal: W.State, torn: bool)
    requires W.AllKnown(log) && PeerInv(log, p) && p.running
    requires |p.core.wal.entries| < |log|
    requires wal.entries == p.core.wal.entries || wal.entries == p.core.wal.entries + [log[|p.core.wal.entries|]]
    requires if torn then W.Open(wal.file).Err? else W.Sound(wal)
    ensures PeerInv(log, Stopped(p.(core := p.core.(wal := wal), walTorn := torn)))
    ensures p.core.wal.entries <= wal.entries
  {
  }

  lemma CrashKeeps(log: seq<Entry>, p: Peer, written: nat)
    requires GoodLog(log) && PeerInv(log, p) && p.running
    ensures PeerInv(log, Crashed(p, written))
    ensures p.core.wal.entries <= Crashed(p, written).core.wal.entries
  {
    if p.up && p.down != [] && p.down[0].op == OP_WAL {
      var wal, torn := CrashEffect(log, p, written);
      StoppedWith(log, p, wal, torn);
    }
  }

  lemma QuietKeeps(log: seq<Entry>, p: Peer, data: seq<byte>)
    requires W.AllKnown(log) && PeerInv(log, p)
    ensures PeerInv(log, Stopped(p)) && PeerInv(log, Disconnected(p)) && PeerInv(log, TookPending(p))
    ensures PeerInv(log, Resent(p, data)) && PeerInv(log, Pumped(p, data))
  {
  }

  // ---- The server's side ---------------------------------------------------

  lemma SentKeeps(log: seq<Entry>, p: Peer, e: nat, pkt: Packet)
    requires W.AllKnown(log) && PeerInv(log, p) && e in p.players
    requires pkt.op != OP_WAL
    requires pkt.op == OP_WAL_ACK ==> TrueAck(log, pkt)
    ensures PeerInv(log, Sent(p, e, pkt))
  {
    if p.up {
      DownOther(log, |p.core.wal.entries|, p.down, pkt);
    }
  }

  lemma OwingKeeps(log: seq<Entry>, p: Peer, e: nat, key: Key)
    requires W.AllKnown(log) && PeerInv(log, p) && key in W.KeySet(log)
    ensures PeerInv(log, Owing(p, e, key))
  {
    hide WalInv, EpochInv, LinkInv;
  }

  /** Whenever an acknowledgement is sent, and whatever is sent before it, it is true. */
  lemma AckedKeeps(log: seq<Entry>, p: Peer, e: nat, key: Key)
    requires W.AllKnown(log) && PeerInv(log, p) && e in p.players && (e, key) in p.owed
    ensures PeerInv(log, Acked(p, e, key))
  {
    hide WalInv, EpochInv, LinkInv;
    SentKeeps(log, p, e, AckPacket(key));
  }

  lemma LinkStream(log: seq<Entry>, k: nat, epoch: nat, down: seq<Packet>,
                   players: map<nat, uint32>, hellos: map<nat, seq<byte>>)
    requires W.AllKnown(log) && LinkInv(log, k, epoch, down, players, hellos)
    requires epoch in players && epoch !in hellos && players[epoch] < |log| < UINT32_MODULUS
    ensures var i := players[epoch];
            LinkInv(log, k, epoch, down + [WalPacket(i, log[i])], players[epoch := Add32(i, 1)], hellos)
  {
    DownWal(log, k, down);
  }

  lemma StreamKeeps(log: seq<Entry>, p: Peer, e: nat)
    requires W.AllKnown(log) && PeerInv(log, p) && e in p.players
    requires p.players[e] < |log| < UINT32_MODULUS
    ensures PeerInv(log, Streamed(p, e, log[p.players[e]]))
  {
    var players := p.players[e := Add32(p.players[e], 1)];
    assert EpochInv(p.epoch, players, p.hellos);
    if p.up && p.epoch == e {
      LinkStream(log, |p.core.wal.entries|, e, p.down, p.players, p.hellos);
    } else if p.up {
      assert LinkInv(log, |p.core.wal.entries|, p.epoch, p.down, players, p.hellos);
    }
  }

  lemma GreetKeeps(log: seq<Entry>, p: Peer, e: nat, walIndex: uint32)
    requires W.AllKnown(log) && PeerInv(log, p) && e in p.hellos
    requires HelloNames(p.hellos[e], walIndex)
    ensures PeerInv(log, Greeted(p, e, walIndex)) && PeerInv(log, Refused(p, e))
  {
  }

  lemma RefuseKeeps(log: seq<Entry>, p: Peer, e: nat)
    requires W.AllKnown(log) && PeerInv(log, p) && e in p.hellos
    ensures PeerInv(log, Refused(p, e))
  {
  }

  lemma DropKeeps(log: seq<Entry>, p: Peer, e: nat, survive: nat)
    requires W.AllKnown(log) && PeerInv(log, p)
    ensures PeerInv(log, Dropped(p, e, survive))
  {
    if p.up && p.epoch == e && survive < |p.down| {
      DownPrefix(log, |p.core.wal.entries|, p.down, survive);
    }
  }

  lemma GoneKeeps(log: seq<Entry>, p: Peer)
    requires W.AllKnown(log) && PeerInv(log, p)
    ensures PeerInv(log, ServerGone(p))
  {
  }

  // ---- Putting a client back -----------------------------------------------

  function PlayersOf(w: World, c: nat): nat {
    if c in w.peers then |w.peers[c].players| else 0
  }

  lemma PutKeeps(w: World, c: nat, p: Peer)
    requires Inv(w) && PeerInv(w.wal.entries, p)
    requires |p.players| == 0 <==> PlayersOf(w, c) == 0
    ensures Inv(Put(w, c, p))
  {
    SamePlayers(w, c, p);
  }

  lemma SamePlayers(w: World, c: nat, p: Peer)
    requires |p.players| == 0 <==> PlayersOf(w, c) == 0
    ensures SomeonePlays(Put(w, c, p).peers) <==> SomeonePlays(w.peers)
  {
    var w' := Put(w, c, p);
    if x :| x in w.peers && |w.peers[x].players| > 0 {
      assert x in w'.peers && |w'.peers[x].players| > 0;
    }
    if x :| x in w'.peers && |w'.peers[x].players| > 0 {
      assert x in w.peers && |w.peers[x].players| > 0;
    }
  }

  lemma DropPlayerKeeps(w: World, c: nat, e: nat, survive: nat)
    requires Inv(w) && c in w.peers
    ensures Inv(DropPlayer(w, c, e, survive))
  {
    var p := Dropped(w.peers[c], e, survive);
    DropKeeps(w.wal.entries, w.peers[c], e, survive);
    var w' := Put(w, c, p);
    if SomeonePlays(w'.peers) {
      var x :| x in w'.peers && |w'.peers[x].players| > 0;
      assert x in w.peers && |w.peers[x].players| > 0;
    }
  }

  lemma AcceptKeeps(w: World, c: nat, e: nat)
    requires Inv(w) && c in w.peers
    ensures Inv(DoAccept(w, c, e))
    ensures DoAccept(w, c, e).wal.entries == w.wal.entries
  {
    hide PeerInv, W.Sound, HelloNames;
    var p := w.peers[c];
    if e in p.hellos {
      RefuseKeeps(w.wal.entries, p, e);
      PutKeeps(w, c, Refused(p, e));
      var hello, file := ParseClientHello(p.hellos[e]), W.Open(w.wal.file);
      if hello.Ok? && (w.open || file.Ok?) {
        if !w.open {
          W.ReopenSame(w.wal);
          W.OpenSound(w.wal.file);
        }
        var q := Greeted(p, e, hello.value.walIndex);
        GreetKeeps(w.wal.entries, p, e, hello.value.walIndex);
        assert e in q.players;
        var w' := DoAccept(w, c, e);
        assert w'.peers[c] == q && |q.players| > 0;
      }
    }
  }
}
