/** What the system guarantees in every state it can reach. */
module Theorems {
  import opened Wrappers
  import opened Bytes
  import opened WalEntry
  import opened Wire
  import opened Packets
  import opened ClientState
  import opened Protocol
  import opened Links
  import opened Safety
  import opened Delivery
  import Ipc
  import Q = QueueState
  import W = WalState

  /** The states some run of the system leads to. */
  ghost predicate Reached(w: World) {
    exists steps :: Run(INIT, steps) == w
  }

  lemma ReachedInv(w: World)
    requires Reached(w)
    ensures SystemInv(w)
  {
    var steps :| Run(INIT, steps) == w;
    Reachable(steps);
  }

  lemma ReachedPeer(w: World, c: nat)
    requires Reached(w) && c in w.peers
    ensures GoodLog(w.wal.entries) && PeerInv(w.wal.entries, w.peers[c])
    ensures QueueInv(w.wal.entries, w.peers[c]) && OriginInv(w.reported, w.peers[c])
  {
    ReachedInv(w);
  }

  // ---- Logs are prefixes, and the wire carries the rest --------------------

  /** The log packets of a downlink, in order. */
  function LogPackets(down: seq<Packet>): seq<Packet> {
    if down == [] then []
    else (if down[0].op == OP_WAL then [down[0]] else []) + LogPackets(down[1..])
  }

  lemma {:induction false} DownLists(log: seq<Entry>, k: nat, down: seq<Packet>)
    requires W.AllKnown(log) && W.AllNormal(log) && DownInv(log, k, down)
    ensures |LogPackets(down)| == Carried(down) && k + Carried(down) <= |log| < UINT32_MODULUS
    ensures forall i :: 0 <= i < |LogPackets(down)| ==>
              ParseServerWal(LogPackets(down)[i].data) == Ok(ServerWal(k + i, log[k + i]))
    decreases |down|
  {
    hide WalPacket, ParseServerWal, W.KeySet;
    if down != [] {
      var rest := LogPackets(down[1..]);
      if down[0].op == OP_WAL {
        DownLists(log, k + 1, down[1..]);
        WalPacketParses(k, log[k]);
        assert forall i :: 0 < i <= |rest| ==> ([down[0]] + rest)[i] == rest[i - 1];
      } else {
        DownLists(log, k, down[1..]);
        assert [] + rest == rest;
      }
    }
  }

  lemma {:induction false} DownAcks(log: seq<Entry>, k: nat, down: seq<Packet>)
    requires W.AllKnown(log) && DownInv(log, k, down)
    ensures forall pkt <- down :: pkt.op == OP_WAL_ACK ==> TrueAck(log, pkt)
    decreases |down|
  {
    if down != [] {
      DownAcks(log, if down[0].op == OP_WAL then k + 1 else k, down[1..]);
      assert down == [down[0]] + down[1..];
    }
  }

  /** In every reachable state a client's log is a prefix of the server's. The log packets on the way
      to it are the server's next entries, each carrying as its index the position where the client
      will put it, and the player that sends them goes on right behind the last one. Every
      acknowledgement on the way names a key in the server's log. */
  lemma LogsArePrefixes(w: World, c: nat)
    requires Reached(w) && c in w.peers
    ensures var p, log := w.peers[c], w.wal.entries;
            var k, ws := |p.core.wal.entries|, LogPackets(p.down);
            && p.core.wal.entries <= log
            && k + |ws| <= |log| < UINT32_MODULUS
            && (forall i :: 0 <= i < |ws| ==> ParseServerWal(ws[i].data) == Ok(ServerWal(k + i, log[k + i])))
            && (p.up && p.epoch in p.players ==> p.players[p.epoch] == k + |ws|)
            && (forall pkt <- p.down :: pkt.op == OP_WAL_ACK ==> TrueAck(log, pkt))
  {
    hide Reached, QueueInv, OriginInv, W.Load, W.Open, W.NoRepeats, ParseServerWal, EpochInv;
    ReachedPeer(w, c);
    var p := w.peers[c];
    if p.up {
      DownLists(w.wal.entries, |p.core.wal.entries|, p.down);
      DownAcks(w.wal.entries, |p.core.wal.entries|, p.down);
    }
  }

  /** From any reachable state on, the server's log only grows and never holds a key twice; its
      session is open exactly while it has players. */
  lemma ServerLogGrows(w: World, more: seq<Step>)
    requires Reached(w)
    ensures var w' := Run(w, more);
            && w.wal.entries <= w'.wal.entries
            && W.AllKnown(w'.wal.entries) && W.NoRepeats(w'.wal.entries)
            && (w'.open <==> SomeonePlays(w'.peers))
  {
    hide Run;
    ReachedInv(w);
    RunKeepsSystem(w, more);
  }

  lemma GameWalLogs(w: World, x: nat, payload: seq<byte>, nonce: uint32, io: Q.AddIo, room: bool, c: nat)
    requires c in w.peers && x in w.peers
    ensures c in DoGameWal(w, x, payload, nonce, io, room).peers
            && DoGameWal(w, x, payload, nonce, io, room).peers[c].core.wal == w.peers[c].core.wal
  {
    hide EntryFor, Q.AddState, Q.Untorn;
  }

  lemma PeerStepGrows(w: World, s: Step, c: nat)
    requires Inv(w) && c in w.peers
    ensures w.peers[c].core.wal.entries <= PeerStep(w.peers[c], s).core.wal.entries
  {
    hide PeerStep;
    PeerStepKeeps(w.wal.entries, w.peers[c], s);
  }

  lemma ClientStepGrows(w: World, s: Step, c: nat)
    requires Inv(w) && c in w.peers
    ensures c in Apply(w, s).peers && w.peers[c].core.wal.entries <= Apply(w, s).peers[c].core.wal.entries
  {
    hide Inv, PeerStep, DoAccept, DoServerRecv, DoStreamOut, DropPlayer, DoServerCrash, DoGameWal;
    if ServerStep(s) {
      ServerStepClients(w, s);
      assert SameClient(w.peers[c], Apply(w, s).peers[c]);
    } else if s.GameWal? {
      if s.c in w.peers {
        GameWalLogs(w, s.c, s.payload, s.nonce, s.addIo, s.room, c);
      }
    } else if !s.Join? && s.c == c {
      PeerStepGrows(w, s, c);
    }
  }

  lemma {:induction false} ClientRunGrows(w: World, steps: seq<Step>, c: nat)
    requires Inv(w) && c in w.peers
    ensures c in Run(w, steps).peers && w.peers[c].core.wal.entries <= Run(w, steps).peers[c].core.wal.entries
    decreases |steps|
  {
    hide Inv, Apply;
    if steps != [] {
      StepKeeps(w, steps[0]);
      ClientStepGrows(w, steps[0], c);
      ClientRunGrows(Apply(w, steps[0]), steps[1..], c);
    }
  }

  /** Nor does a client's log lose anything, through reconnections, restarts and crashes. */
  lemma ClientLogGrows(w: World, more: seq<Step>, c: nat)
    requires Reached(w) && c in w.peers
    ensures c in Run(w, more).peers && w.peers[c].core.wal.entries <= Run(w, more).peers[c].core.wal.entries
  {
    ReachedInv(w);
    ClientRunGrows(w, more, c);
  }

  // ---- Nothing lost, nothing invented --------------------------------------

  /** An entry of this key is in the server's log. It is a report, or was salvaged by some client. */
  ghost predicate InLog(w: World, key: Key) {
    exists e :: e in w.wal.entries && DedupKey(e) == Ok(key) && (e in w.reported || Salvaged(w.peers, e))
  }

  lemma LoggedInLog(w: World, key: Key)
    requires Reached(w) && Logged(w.wal.entries, key)
    ensures InLog(w, key)
  {
    ReachedInv(w);
    var e :| e in w.wal.entries && Known(e) && KeyOf(e) == key;
    assert DedupKey(e) == Ok(key);
  }

  lemma InLogLogged(w: World, key: Key)
    requires Reached(w) && InLog(w, key)
    ensures Logged(w.wal.entries, key)
  {
    ReachedInv(w);
  }

  /** Under this key a client has an entry of this key in its queue. It is a report, or was salvaged. */
  predicate InQueue(reported: set<Entry>, p: Peer, m: Q.Live, key: Key) {
    Held(m, key) && Sourced(reported, p.salvaged, m[key])
  }

  /** A client's files can be read. */
  predicate CanStart(p: Peer) {
    W.Open(p.core.wal.file).Ok? && Q.Open(p.core.queue.file).Ok?
  }

  /** The step starts the client on a queue file with a torn record inside. */
  predicate UncleanStart(p: Peer, s: Step, c: nat) {
    s.Start? && s.c == c && !p.running && CanStart(p) && !p.clean
  }

  /** The step reports an entry under whose key the queue holds something else. */
  predicate OverJunk(p: Peer, s: Step, c: nat, key: Key) {
    && s.GameWal? && s.c == c && p.running
    && Ipc.ParseWalIn(s.payload).Ok?
    && var e := EntryFor(p.me, Ipc.ParseWalIn(s.payload).value, s.nonce);
       e.Ok? && DedupKey(e.value) == Ok(key) && key in p.core.queue.live && !Held(p.core.queue.live, key)
  }

  /** A key is dropped in two ways and no other: a start on a queue file with a torn record inside
      drops the accepted keys under which the file does not give back an entry of theirs; and a report
      drops its key if the queue holds something else under it, for then `Add` returns nil and adds
      nothing. */
  lemma DroppedIff(w: World, s: Step, c: nat, key: Key)
    requires c in w.peers && key !in w.peers[c].dropped
    ensures c in Apply(w, s).peers
    ensures var p := w.peers[c];
            key in Apply(w, s).peers[c].dropped
            <==> (UncleanStart(p, s, c) && key in p.accepted && !Held(Q.Load(p.core.queue.file).value, key))
                 || OverJunk(p, s, c, key)
  {
    hide Apply, PeerStep, DoGameWal, CanStart, Held, OverJunk;
    StepOf(w, s, c);
    NoReport(w.peers[c], s, c, key);
    if !ServerStep(s) && s.c == c && !s.Join? {
      if s.GameWal? {
        GameWalDrops(w, s, c, key);
      } else {
        PeerStepDrops(w.peers[c], s, key);
      }
    }
  }

  lemma NoReport(p: Peer, s: Step, c: nat, key: Key)
    ensures OverJunk(p, s, c, key) ==> s.GameWal? && s.c == c
  {
  }

  lemma GameWalDrops(w: World, s: Step, c: nat, key: Key)
    requires s.GameWal? && s.c == c && c in w.peers && key !in w.peers[c].dropped
    ensures var w' := DoGameWal(w, c, s.payload, s.nonce, s.addIo, s.room);
            && c in w'.peers && w'.peers[c].salvaged == w.peers[c].salvaged
            && (key in w'.peers[c].dropped <==> OverJunk(w.peers[c], s, c, key))
  {
    hide EntryFor, Reported, Held, KeyOf;
    var p, msg := w.peers[c], Ipc.ParseWalIn(s.payload);
    if p.running && msg.Ok? && EntryFor(p.me, msg.value, s.nonce).Ok? {
      var e := EntryFor(p.me, msg.value, s.nonce).value;
      EntryForNormal(p.me, msg.value, s.nonce);
      KeyKnown(e);
      ReportDrops(p, msg.value.token, e, s.addIo, s.room, key);
    }
  }

  lemma ReportDrops(p: Peer, token: uint32, e: Entry, io: Q.AddIo, room: bool, key: Key)
    requires Known(e) && key !in p.dropped
    ensures var q := Reported(p, token, e, io, room);
            && q.salvaged == p.salvaged
            && (key in q.dropped <==> key == KeyOf(e) && key in p.core.queue.live && !Held(p.core.queue.live, key))
  {
    hide Q.Untorn, Q.Left, Carries, KeyOf, W.Payload;
    PayloadCarries(e);
  }

  lemma PeerStepDrops(p: Peer, s: Step, key: Key)
    requires key !in p.dropped
    ensures key in PeerStep(p, s).dropped
            <==> UncleanStart(p, s, s.c) && key in p.accepted && !Held(Q.Load(p.core.queue.file).value, key)
  {
    if s.Start? {
      hide W.Open, Q.Load, Held;
    } else if s.Deliver? {
      hide OnUplinkPacket, PacketOk;
    } else {
      hide PeerStep;
      QuietQueue(p, s);
    }
  }

  /** Nor is anything salvaged but at such a start, and then it is just what the file gives back. */
  lemma SalvagedIff(w: World, s: Step, c: nat, data: seq<byte>)
    requires c in w.peers && data !in w.peers[c].salvaged
    ensures c in Apply(w, s).peers
    ensures var p := w.peers[c];
            data in Apply(w, s).peers[c].salvaged
            <==> UncleanStart(p, s, c) && data in Q.Load(p.core.queue.file).value.Values
  {
    hide Apply, PeerStep, DoGameWal, CanStart;
    StepOf(w, s, c);
    if !ServerStep(s) && s.c == c && !s.Join? {
      if s.GameWal? {
        GameWalSalvages(w, s, c);
      } else {
        PeerStepSalvages(w.peers[c], s, data);
      }
    }
  }

  lemma GameWalSalvages(w: World, s: Step, c: nat)
    requires s.GameWal? && c in w.peers
    ensures var w' := DoGameWal(w, c, s.payload, s.nonce, s.addIo, s.room);
            c in w'.peers && w'.peers[c].salvaged == w.peers[c].salvaged
  {
    hide EntryFor, Held, KeyOf, Q.AddState, Q.Untorn;
  }

  lemma PeerStepSalvages(p: Peer, s: Step, data: seq<byte>)
    requires data !in p.salvaged
    ensures data in PeerStep(p, s).salvaged
            <==> UncleanStart(p, s, s.c) && data in Q.Load(p.core.queue.file).value.Values
  {
    if s.Start? {
      hide W.Open, Q.Load, Held;
    } else if s.Deliver? {
      hide OnUplinkPacket, PacketOk;
    } else {
      hide PeerStep;
      QuietQueue(p, s);
    }
  }

  // ---- Stopped clients -----------------------------------------------------

  lemma StartPuts(w: World, c: nat, me: Identity)
    requires c in w.peers
    ensures Apply(w, Start(c, me)) == Put(w, c, Started(w.peers[c], me))
  {
    hide Started;
  }

  /** What has come behind the queue file since a write was torn. */
  function Behind(p: Peer): seq<byte>
    requires p.whole <= p.core.queue.file
  {
    p.core.queue.file[|p.whole|..]
  }

  /** The queue file can be read if no write was torn, or what came later happens to make sense. */
  predicate QueueReads(p: Peer) {
    p.clean || (p.whole <= p.core.queue.file && Q.Load(Behind(p)).Ok?)
  }

  /** A stopped client can be started again if and only if it did not die inside an append to its log,
      and no write to its queue was torn or what came behind it can be read. */
  lemma StartsIff(w: World, c: nat)
    requires Reached(w) && c in w.peers && !w.peers[c].running
    ensures W.Open(w.peers[c].core.wal.file).Ok? <==> !w.peers[c].walTorn
    ensures Q.Open(w.peers[c].core.queue.file).Ok? <==> QueueReads(w.peers[c])
    ensures CanStart(w.peers[c]) <==> !w.peers[c].walTorn && QueueReads(w.peers[c])
  {
    hide Reached, W.Open, Q.Load, Held, W.Sound;
    ReachedPeer(w, c);
    var p := w.peers[c];
    if !p.clean {
      assert p.core.queue.file == p.whole + Behind(p);
      Q.LoadAppend(p.whole, Behind(p));
    }
    if !p.walTorn {
      PrefixNormal(w.wal.entries, p.core.wal.entries);
      W.ReopenSame(p.core.wal);
    }
  }

  /** What a stopped client keeps. */
  predicate AsStopped(p: Peer, q: Peer) {
    && !q.running && q.core == p.core && q.walTorn == p.walTorn && q.clean == p.clean && q.whole == p.whole
    && q.accepted == p.accepted && q.dropped == p.dropped
  }

  lemma StuckStep(w: World, s: Step, c: nat)
    requires Inv(w) && c in w.peers && !w.peers[c].running && !CanStart(w.peers[c])
    ensures c in Apply(w, s).peers && AsStopped(w.peers[c], Apply(w, s).peers[c])
  {
    hide Apply, PeerStep, DoGameWal, CanStart, Inv;
    assert !w.peers[c].up by { PeerOf(w, c); }
    StepOf(w, s, c);
    if !ServerStep(s) && s.c == c && !s.Join? {
      if s.GameWal? {
        GameWalStopped(w, s, c);
      } else {
        StuckPeer(w.peers[c], s);
      }
    }
  }

  lemma GameWalStopped(w: World, s: Step, c: nat)
    requires s.GameWal? && c in w.peers && !w.peers[c].running
    ensures DoGameWal(w, c, s.payload, s.nonce, s.addIo, s.room) == w
  {
  }

  lemma StuckPeer(p: Peer, s: Step)
    requires !p.running && !p.up && !CanStart(p)
    ensures AsStopped(p, PeerStep(p, s))
  {
    hide W.Open, Q.Open, Parse, Delivered, Crashed, Dialed;
  }

  /** A stopped client whose files cannot be read stays stopped with them for ever. */
  lemma {:induction false} StuckForever(w: World, c: nat, more: seq<Step>)
    requires Inv(w) && c in w.peers && !w.peers[c].running && !CanStart(w.peers[c])
    ensures c in Run(w, more).peers && AsStopped(w.peers[c], Run(w, more).peers[c])
    decreases |more|
  {
    hide Inv, Apply;
    if more != [] {
      StepKeeps(w, more[0]);
      StuckStep(w, more[0], c);
      StuckForever(Apply(w, more[0]), c, more[1..]);
    }
  }

  /** A start gives an accepted key that is neither dropped nor logged yet its entry back if and only if
      the log's file is whole, and no write to the queue was torn or the queue file is readable and has
      an entry of that key. In particular it gives all of them back when no write was torn. */
  lemma StartFindsIff(w: World, c: nat, me: Identity, key: Key)
    requires Reached(w) && c in w.peers && !w.peers[c].running
    requires key in w.peers[c].accepted && key !in w.peers[c].dropped && !Logged(w.wal.entries, key)
    ensures var p, w' := w.peers[c], Apply(w, Start(c, me));
            && c in w'.peers
            && (w'.peers[c].running && Held(w'.peers[c].core.queue.live, key)
                <==> !p.walTorn && (p.clean || (Q.Load(p.core.queue.file).Ok?
                                                && Held(Q.Load(p.core.queue.file).value, key))))
  {
    hide Reached, W.Open, Q.Load, Held;
    ReachedPeer(w, c);
    StartsIff(w, c);
    var p := w.peers[c];
    assert key in p.accepted - p.dropped;
    StartPuts(w, c, me);
  }

  /** Also after a torn write: the entries accepted before it are found, save those whose very key is
      on a record that the start reads from behind what the file was by then. */
  lemma EarlyFoundIff(w: World, c: nat, me: Identity, key: Key)
    requires Reached(w) && c in w.peers && UncleanStart(w.peers[c], Start(c, me), c)
    requires key in w.peers[c].early && !Logged(w.wal.entries, key)
    ensures var p, w' := w.peers[c], Apply(w, Start(c, me));
            && p.whole <= p.core.queue.file && c in w'.peers && w'.peers[c].running
            && var behind := Q.Load(Behind(p));
               && behind.Ok?
               && (Held(w'.peers[c].core.queue.live, key) <==> key !in behind.value || Held(behind.value, key))
  {
    hide Reached, W.Open, Q.Load, Carries;
    ReachedPeer(w, c);
    var p := w.peers[c];
    assert p.core.queue.file == p.whole + Behind(p);
    Q.LoadAppend(p.whole, Behind(p));
    StartPuts(w, c, me);
  }

  // ---- Nothing is lost -----------------------------------------------------

  /** Where an entry of this key is: in the server's log; or in the queue of the client, while it runs;
      or in the queue it will have when it is started. */
  ghost predicate Safe(w: World, c: nat, key: Key)
    requires c in w.peers
  {
    var p := w.peers[c];
    || InLog(w, key)
    || (p.running && InQueue(w.reported, p, p.core.queue.live, key))
    || (!p.running && var q := Started(p, p.me); q.running && InQueue(w.reported, q, q.core.queue.live, key))
  }

  /** When `Add` has returned nil for a key, then for every client and in every later state an entry of
      that key is safe, with four exceptions and no other: the key is dropped, which happens in the two
      ways of DroppedIff; or the client is stopped and its log file torn; or it is stopped and its queue
      file, after a torn write, cannot be read; or that file has no entry of the key. In the second and
      third case the client is stuck (StuckForever), in the fourth a start drops the key. */
  lemma NothingLost(w: World, c: nat, key: Key)
    requires Reached(w) && c in w.peers && key in w.peers[c].accepted && key !in w.peers[c].dropped
    ensures var p := w.peers[c];
            Safe(w, c, key)
            <==> p.running || Logged(w.wal.entries, key)
                 || (!p.walTorn && (p.clean || (Q.Load(p.core.queue.file).Ok?
                                                && Held(Q.Load(p.core.queue.file).value, key))))
  {
    hide Reached, InLog, Q.Load, W.Open, Held, Sourced, Started;
    ReachedPeer(w, c);
    var p := w.peers[c];
    assert key in p.accepted - p.dropped;
    if Logged(w.wal.entries, key) { LoggedInLog(w, key); }
    if InLog(w, key) { InLogLogged(w, key); }
    if p.running {
      if !Logged(w.wal.entries, key) { GenuineHeld(w, p, key); }
    } else {
      StartSources(w, c, key);
      if !Logged(w.wal.entries, key) {
        StartFindsIff(w, c, p.me, key);
        StartPuts(w, c, p.me);
      }
    }
  }

  lemma GenuineHeld(w: World, p: Peer, key: Key)
    requires OriginInv(w.reported, p) && p.running && Held(p.core.queue.live, key)
    ensures InQueue(w.reported, p, p.core.queue.live, key)
  {
    hide Carries, FromGame;
    assert Genuine(w.reported, p.salvaged, key, p.core.queue.live[key]);
  }

  /** Whatever a start finds is a report or salvaged. */
  lemma StartSources(w: World, c: nat, key: Key)
    requires Reached(w) && c in w.peers && !w.peers[c].running
    ensures var q := Started(w.peers[c], w.peers[c].me);
            q.running && Held(q.core.queue.live, key) ==> InQueue(w.reported, q, q.core.queue.live, key)
  {
    hide Reached, W.Open, Q.Load, Held, Restarted, QueueInv;
    ReachedPeer(w, c);
    var p := w.peers[c];
    if CanStart(p) {
      var core := Core(W.Open(p.core.wal.file).value, Q.Open(p.core.queue.file).value);
      assert p.core.queue.file == [] ==> p.clean by { EmptyIsClean(w.wal.entries, p); }
      RestartKeepsOrigin(w.reported, p, p.me, core);
      var q := Restarted(p, p.me, core);
      RestartRuns(p, core);
      if Held(q.core.queue.live, key) { GenuineHeld(w, q, key); }
    }
  }

  lemma EmptyIsClean(log: seq<Entry>, p: Peer)
    requires QueueInv(log, p)
    ensures p.core.queue.file == [] ==> p.clean
  {
  }

  lemma RestartRuns(p: Peer, core: Core)
    ensures Restarted(p, p.me, core).running && Restarted(p, p.me, core).core == core
  {
  }

  /** A client that never started after a torn write, and whose files are whole, has lost nothing. */
  lemma WholeWritesLoseNothing(w: World, c: nat)
    requires Reached(w) && c in w.peers && w.peers[c].salvaged == {}
    ensures w.peers[c].dropped == {}
    ensures w.peers[c].running || (w.peers[c].clean && !w.peers[c].walTorn) ==>
              forall key <- w.peers[c].accepted :: Safe(w, c, key)
  {
    hide Reached, Safe;
    ReachedPeer(w, c);
    forall key <- w.peers[c].accepted | w.peers[c].running || (w.peers[c].clean && !w.peers[c].walTorn)
      ensures Safe(w, c, key)
    {
      NothingLost(w, c, key);
    }
  }

  /** Every entry in any log is exactly one that a game reported, or one that some client found when
      it started on a queue file with a torn record inside. */
  lemma NothingInventedAnywhere(w: World, c: nat)
    requires Reached(w) && c in w.peers
    ensures forall e <- w.wal.entries :: e in w.reported || Salvaged(w.peers, e)
    ensures forall e <- w.peers[c].core.wal.entries :: e in w.reported || Salvaged(w.peers, e)
  {
    hide Reached;
    ReachedInv(w);
    ReachedPeer(w, c);
    var es := w.peers[c].core.wal.entries;
    forall e <- es ensures e in w.reported || Salvaged(w.peers, e) {
      var i :| 0 <= i < |es| && es[i] == e;
      assert w.wal.entries[i] == e;
    }
  }

  /** A queue entry that does not come from such a file parses, is a report, and is queued under the
      key that the server will acknowledge. */
  lemma QueueCoherent(w: World, c: nat, key: Key)
    requires Reached(w) && c in w.peers && w.peers[c].running && key in w.peers[c].core.queue.live
    requires w.peers[c].core.queue.live[key] !in w.peers[c].salvaged
    ensures var e := Parse(w.peers[c].core.queue.live[key]);
            e.Ok? && e.value in w.reported && Held(w.peers[c].core.queue.live, key)
  {
    ReachedPeer(w, c);
    assert Genuine(w.reported, w.peers[c].salvaged, key, w.peers[c].core.queue.live[key]);
  }

  // ---- Agreement -----------------------------------------------------------

  /** How often a key occurs in a log. */
  function Occurrences(es: seq<Entry>, key: Key): nat {
    if es == [] then 0
    else Occurrences(es[..|es| - 1], key) + if DedupKey(es[|es| - 1]) == Ok(key) then 1 else 0
  }

  lemma {:induction false} OccursOnce(es: seq<Entry>, key: Key)
    requires W.AllKnown(es) && W.NoRepeats(es)
    ensures Occurrences(es, key) == if Logged(es, key) then 1 else 0
  {
    hide DedupKey, W.KeySet;
    if es == [] {
      assert W.KeySet([]) == {} by { NoKeys(); }
    } else {
      var init, e := es[..|es| - 1], es[|es| - 1];
      assert es == init + [e];
      assert forall x <- init :: x in es;
      OccursOnce(init, key);
      W.KeySetSnoc(init, e);
      NotTwice(init, e);
      KeyKnown(e);
    }
  }

  lemma NoKeys()
    ensures W.KeySet([]) == {}
  {
  }

  lemma KeyKnown(e: Entry)
    requires Known(e)
    ensures DedupKey(e) == Ok(KeyOf(e))
  {
  }

  lemma NotTwice(init: seq<Entry>, e: Entry)
    requires W.AllKnown(init + [e]) && W.NoRepeats(init + [e])
    ensures Known(e) && !Logged(init, KeyOf(e))
  {
    var es := init + [e];
    assert e in es && es[|init|] == e;
    forall x <- init | Known(x) ensures KeyOf(x) != KeyOf(e) {
      var i :| 0 <= i < |init| && init[i] == x;
      assert es[i] == x;
    }
  }

  /** A connected client with nothing left to receive. */
  predicate CaughtUp(w: World, c: nat)
    requires c in w.peers
  {
    var p := w.peers[c];
    p.up && p.down == [] && p.epoch in p.players && p.players[p.epoch] == |w.wal.entries|
  }

  /** A client, connected or not, with nothing left to send. */
  predicate Emptied(p: Peer) {
    p.running && p.core.queue.live == map[]
  }

  /** The keys a client answers for. */
  function Answered(p: Peer): set<Key> {
    p.accepted - p.dropped
  }

  /** A client that has caught up holds the server's log, and every key accepted by a client with an
      empty queue is in it exactly once, whatever the other clients are doing. */
  lemma QuietMeansAgreement(w: World)
    requires Reached(w)
    ensures forall c <- w.peers :: CaughtUp(w, c) ==> w.peers[c].core.wal.entries == w.wal.entries
    ensures forall d <- w.peers :: Emptied(w.peers[d]) ==>
              forall key <- Answered(w.peers[d]) :: Occurrences(w.wal.entries, key) == 1
  {
    hide Reached;
    forall c <- w.peers | CaughtUp(w, c) ensures w.peers[c].core.wal.entries == w.wal.entries {
      ReachedPeer(w, c);
    }
    forall d <- w.peers | Emptied(w.peers[d])
      ensures forall key <- Answered(w.peers[d]) :: Occurrences(w.wal.entries, key) == 1
    {
      EmptiedOnce(w, d);
    }
  }

  lemma EmptiedOnce(w: World, d: nat)
    requires Reached(w) && d in w.peers && Emptied(w.peers[d])
    ensures forall key <- Answered(w.peers[d]) :: Occurrences(w.wal.entries, key) == 1
  {
    hide Reached;
    ReachedPeer(w, d);
    forall key <- Answered(w.peers[d]) ensures Occurrences(w.wal.entries, key) == 1 {
      OccursOnce(w.wal.entries, key);
    }
  }

  /** Handling a log packet brings a client strictly nearer to the server. */
  lemma DeliveryProgress(w: World, c: nat, truncateOk: bool)
    requires Reached(w) && c in w.peers
    requires w.peers[c].up && w.peers[c].down != [] && w.peers[c].down[0].op == OP_WAL
    ensures var w' := Apply(w, Deliver(c, W.Done, truncateOk));
            && w'.wal == w.wal && c in w'.peers
            && |w'.peers[c].core.wal.entries| <= |w'.wal.entries|
            && |w'.wal.entries| - |w'.peers[c].core.wal.entries|
               == |w.wal.entries| - |w.peers[c].core.wal.entries| - 1
  {
    hide Apply;
    ReachedInv(w);
    DeliverNearer(w, c, truncateOk);
  }

  lemma DeliverNearer(w: World, c: nat, truncateOk: bool)
    requires Inv(w) && c in w.peers && w.peers[c].up && w.peers[c].down != [] && w.peers[c].down[0].op == OP_WAL
    ensures var w' := Apply(w, Deliver(c, W.Done, truncateOk));
            && w'.wal == w.wal && c in w'.peers
            && |w'.peers[c].core.wal.entries| == |w.peers[c].core.wal.entries| + 1 <= |w.wal.entries|
  {
    hide Delivered, Apply, Inv, PeerInv;
    PeerOf(w, c);
    DeliverPuts(w, c, truncateOk);
    DeliverWalKeeps(w.wal.entries, w.peers[c], truncateOk);
    DeliverWalEffect(w.wal.entries, w.peers[c], truncateOk);
  }

  // ---- One find counts once ------------------------------------------------

  predicate OneTimeItem(e: Entry, world: byte, game: byte, location: uint32) {
    e.kind == WAL_ITEM && e.from == world && e.item.game == game && e.item.key == location && e.item.nonce == 0
  }

  lemma OneTimeOnce(log: seq<Entry>, world: byte, game: byte, location: uint32, i: nat, j: nat)
    requires W.AllKnown(log) && W.NoRepeats(log)
    requires i < |log| && j < |log|
    requires OneTimeItem(log[i], world, game, location) && OneTimeItem(log[j], world, game, location)
    ensures i == j
  {
    KeyInjective(log[i], log[j]);
  }

  predicate TwiceIsOnce(log: seq<Entry>, world: byte, game: byte, location: uint32, i: nat, j: nat) {
    (i < |log| && j < |log| && OneTimeItem(log[i], world, game, location)
     && OneTimeItem(log[j], world, game, location)) ==> i == j
  }

  /** However often the games of a world report an item that is not renewable, no log in the system
      ever holds it more than once. */
  lemma ItemCountsOnce(w: World, c: nat, world: byte, game: byte, location: uint32, i: nat, j: nat)
    requires Reached(w) && c in w.peers
    ensures TwiceIsOnce(w.wal.entries, world, game, location, i, j)
    ensures TwiceIsOnce(w.peers[c].core.wal.entries, world, game, location, i, j)
  {
    ReachedPeer(w, c);
    var log, own := w.wal.entries, w.peers[c].core.wal.entries;
    if i < |log| && j < |log| && OneTimeItem(log[i], world, game, location)
       && OneTimeItem(log[j], world, game, location) {
      OneTimeOnce(log, world, game, location, i, j);
    }
    if i < |own| && j < |own| {
      assert own[i] == log[i] && own[j] == log[j];
    }
  }
}
