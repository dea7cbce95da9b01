/** What is always still possible: from every reachable state a client can catch up with the server,
    and an entry in its queue can reach the server and be acknowledged. */
module Progress {
  import opened Bytes
  import opened WalEntry
  import opened Wire
  import opened Packets
  import opened Protocol
  import opened Links
  import opened Safety
  import opened Delivery
  import opened Theorems
  import Q = QueueState
  import W = WalState

  /** A connection in use, with nothing on its way to the client. */
  predicate Ready(w: World, c: nat) {
    c in w.peers && w.peers[c].up && w.peers[c].down == [] && w.peers[c].epoch in w.peers[c].players
  }

  lemma RunOne(w: World, s: Step)
    ensures Run(w, [s]) == Apply(w, s)
  {
    hide Apply;
    assert [s][1..] == [];
  }

  lemma RunCons(w: World, s: Step, more: seq<Step>)
    ensures Run(w, [s] + more) == Run(Apply(w, s), more)
  {
    hide Apply;
    assert ([s] + more)[1..] == more;
  }

  lemma RunFour(w: World, x: Step, y: Step, z: Step, t: Step)
    ensures Run(w, [x, y, z, t]) == Apply(Apply(Apply(Apply(w, x), y), z), t)
  {
    hide Apply, Run;
    RunCons(w, x, [y, z, t]);
    RunCons(Apply(w, x), y, [z, t]);
    RunCons(Apply(Apply(w, x), y), z, [t]);
    RunOne(Apply(Apply(Apply(w, x), y), z), t);
    assert [x, y, z, t] == [x] + [y, z, t] && [y, z, t] == [y] + [z, t] && [z, t] == [z] + [t];
  }

  // ---- What the others notice ----------------------------------------------

  /** Steps of one client and of its connections. */
  predicate OnlyOf(steps: seq<Step>, c: nat) {
    forall s <- steps :: s.c == c && !s.ServerCrash? && !s.Join? && !s.GameWal?
  }

  lemma OnlyOfConcat(xs: seq<Step>, ys: seq<Step>, c: nat)
    requires OnlyOf(xs, c) && OnlyOf(ys, c)
    ensures OnlyOf(xs + ys, c)
  {
  }

  predicate OthersSame(w: World, w': World, c: nat) {
    && w'.peers.Keys == w.peers.Keys && w'.reported == w.reported
    && forall x <- w.peers :: x != c ==> w'.peers[x] == w.peers[x]
  }

  lemma PutOthers(w: World, c: nat, p: Peer)
    requires c in w.peers
    ensures OthersSame(w, Put(w, c, p), c)
  {
  }

  lemma DropOthers(w: World, c: nat, e: nat, survive: nat)
    requires c in w.peers
    ensures OthersSame(w, DropPlayer(w, c, e, survive), c)
  {
    hide Dropped;
  }

  lemma RecvOthers(w: World, c: nat, e: nat, data: seq<byte>, io: W.AppendIo)
    requires c in w.peers
    ensures OthersSame(w, DoServerRecv(w, c, e, data, io), c)
  {
    hide Receives, Parse, W.AppendState, W.AppendResult, DropPlayer, Owing;
    DropOthers(w, c, e, |w.peers[c].down|);
  }

  lemma AcceptOthers(w: World, c: nat, e: nat)
    requires c in w.peers
    ensures OthersSame(w, DoAccept(w, c, e), c)
  {
    hide W.Open, ParseClientHello, Greeted, Refused;
  }

  lemma StreamOthers(w: World, c: nat, e: nat)
    requires c in w.peers
    ensures OthersSame(w, DoStreamOut(w, c, e), c)
  {
    hide Streamed, DropPlayer;
    DropOthers(w, c, e, |w.peers[c].down|);
  }

  lemma ServerStepOthers(w: World, s: Step)
    requires ServerStep(s) && !s.ServerCrash? && s.c in w.peers
    ensures OthersSame(w, Apply(w, s), s.c)
  {
    hide DoServerRecv, DoAccept, DoStreamOut, DropPlayer, DoServerCrash, OthersSame;
    match s {
      case ServerRecv(c, e, data, io) => RecvOthers(w, c, e, data, io);
      case Accept(c, e) => AcceptOthers(w, c, e);
      case StreamOut(c, e) => StreamOthers(w, c, e);
      case ServerDrop(c, e, survive) => DropOthers(w, c, e, survive);
    }
  }

  lemma PeerStepPuts(w: World, s: Step)
    requires !ServerStep(s) && !s.Join? && !s.GameWal? && s.c in w.peers
    ensures Apply(w, s) == Put(w, s.c, PeerStep(w.peers[s.c], s))
  {
    hide PeerStep;
  }

  lemma StepOthers(w: World, s: Step)
    requires s.c in w.peers && OnlyOf([s], s.c)
    ensures OthersSame(w, Apply(w, s), s.c)
  {
    hide Apply, PeerStep, OthersSame;
    assert s in [s];
    if ServerStep(s) {
      ServerStepOthers(w, s);
    } else {
      PeerStepPuts(w, s);
      PutOthers(w, s.c, PeerStep(w.peers[s.c], s));
    }
  }

  lemma {:induction false} RunOthers(w: World, steps: seq<Step>, c: nat)
    requires c in w.peers && OnlyOf(steps, c)
    ensures OthersSame(w, Run(w, steps), c)
    decreases |steps|
  {
    hide Apply, OnlyOf;
    if steps != [] {
      assert OnlyOf([steps[0]], c) && steps[0].c == c && OnlyOf(steps[1..], c) by { OnlyOfTail(steps, c); }
      StepOthers(w, steps[0]);
      RunOthers(Apply(w, steps[0]), steps[1..], c);
    }
  }

  lemma OnlyOfTail(steps: seq<Step>, c: nat)
    requires OnlyOf(steps, c) && steps != []
    ensures OnlyOf([steps[0]], c) && steps[0].c == c && OnlyOf(steps[1..], c)
  {
  }

  // ---- Reconnecting --------------------------------------------------------

  function Reconnect(c: nat, epoch: nat): seq<Step> {
    [Disconnect(c), Dial(c), Accept(c, epoch)]
  }

  lemma DialEffect(p: Peer)
    ensures var q := Dialed(Disconnected(p));
            && q.epoch == p.epoch + 1 && q.up && q.down == [] && q.outbox == {} && q.resend == p.resend
            && q.core == p.core && q.running == p.running
            && q.epoch in q.hellos && HelloNames(q.hellos[q.epoch], p.core.wal.count)
  {
    HelloNamesCount(Disconnected(p));
  }

  /** What a fresh connection leaves as it was. */
  predicate Reconnected(w: World, w': World, c: nat)
    requires c in w.peers
  {
    && Ready(w', c)
    && w'.wal.entries == w.wal.entries && w'.wal.keys == w.wal.keys && !w'.torn
    && w'.peers[c].core == w.peers[c].core && w'.peers[c].resend == w.peers[c].resend
    && w'.peers[c].running
  }

  lemma RunThree(w: World, x: Step, y: Step, z: Step)
    requires Inv(w)
    ensures Run(w, [x, y, z]) == Apply(Apply(Apply(w, x), y), z)
    ensures Inv(Apply(Apply(w, x), y)) && Inv(Apply(Apply(Apply(w, x), y), z))
  {
    hide Apply, Run, Inv;
    RunCons(w, x, [y, z]);
    RunCons(Apply(w, x), y, [z]);
    RunOne(Apply(Apply(w, x), y), z);
    assert [x, y, z] == [x] + [y, z] && [y, z] == [y] + [z];
    StepKeeps(w, x);
    StepKeeps(Apply(w, x), y);
    StepKeeps(Apply(Apply(w, x), y), z);
  }

  lemma DialPuts(w: World, c: nat)
    requires c in w.peers && w.peers[c].running
    ensures Apply(Apply(w, Disconnect(c)), Dial(c)) == Put(w, c, Dialed(Disconnected(w.peers[c])))
  {
    hide Dialed;
  }

  lemma ReconnectWorks(w: World, c: nat)
    requires Inv(w) && c in w.peers && w.peers[c].running && !w.torn
    ensures var w' := Run(w, Reconnect(c, w.peers[c].epoch + 1));
            Inv(w') && Reconnected(w, w', c)
  {
    hide Apply, Run, Dialed, PeerInv, Inv, GoodLog, W.Sound;
    ServerSound(w);
    var e := w.peers[c].epoch + 1;
    var w2 := Put(w, c, Dialed(Disconnected(w.peers[c])));
    RunThree(w, Disconnect(c), Dial(c), Accept(c, e));
    DialPuts(w, c);
    DialEffect(w.peers[c]);
    AcceptEffect(w2, c, e, Apply(w2, Accept(c, e)));
  }

  lemma AcceptEffect(w: World, c: nat, e: nat, w': World)
    requires c in w.peers && e in w.peers[c].hellos && w' == Apply(w, Accept(c, e))
    requires ParseClientHello(w.peers[c].hellos[e]).Ok?
    requires GoodLog(w.wal.entries) && W.Sound(w.wal)
    ensures c in w'.peers && e in w'.peers[c].players
    ensures w'.peers[c] == Greeted(w.peers[c], e, w'.peers[c].players[e])
    ensures w'.wal.entries == w.wal.entries && w'.wal.keys == w.wal.keys && w'.torn == w.torn
  {
    W.ReopenSame(w.wal);
  }

  // ---- Catching up ---------------------------------------------------------

  function Pull(c: nat, epoch: nat, n: nat): seq<Step> {
    if n == 0 then []
    else [StreamOut(c, epoch), Deliver(c, W.Done, true)] + Pull(c, epoch, n - 1)
  }

  /** Nothing in the one queue that is not in the other. */
  predicate Within(m: Q.Live, n: Q.Live) {
    forall k <- m :: k in n && m[k] == n[k]
  }

  /** What catching up leaves as it was. */
  predicate Pulled(w: World, w': World, c: nat)
    requires c in w.peers
  {
    && Ready(w', c) && w'.peers[c].epoch == w.peers[c].epoch && w'.wal == w.wal && w'.torn == w.torn
    && w'.peers[c].running == w.peers[c].running
    && Within(w'.peers[c].core.queue.live, w.peers[c].core.queue.live)
  }

  /** One entry more. */
  lemma PullOne(w: World, c: nat)
    requires Inv(w) && Ready(w, c) && |w.peers[c].core.wal.entries| < |w.wal.entries| && !w.torn && W.Sound(w.wal)
    ensures var e := w.peers[c].epoch;
            var w' := Apply(Apply(w, StreamOut(c, e)), Deliver(c, W.Done, true));
            && Inv(w') && Pulled(w, w', c)
            && |w'.peers[c].core.wal.entries| == |w.peers[c].core.wal.entries| + 1
  {
    hide Apply, WalPacket, Inv;
    var p, log := w.peers[c], w.wal.entries;
    PeerOf(w, c);
    var e, k := p.epoch, |p.core.wal.entries|;
    StreamOutEffect(w, c, e);
    StepKeeps(w, StreamOut(c, e));
    var w1 := Apply(w, StreamOut(c, e));
    assert w1.peers[c].down == [WalPacket(k, log[k])];
    WalPacketOp(k, log[k]);
    PullDeliver(w1, c, WalPacket(k, log[k]));
  }

  lemma WalPacketOp(index: uint32, e: Entry)
    requires Known(e)
    ensures WalPacket(index, e).op == OP_WAL
  {
  }

  lemma StreamOutEffect(w: World, c: nat, e: nat)
    requires c in w.peers && e in w.peers[c].players && GoodLog(w.wal.entries) && W.Sound(w.wal)
    requires w.peers[c].players[e] < |w.wal.entries|
    ensures Known(w.wal.entries[w.peers[c].players[e]])
    ensures Apply(w, StreamOut(c, e)) == Put(w, c, Streamed(w.peers[c], e, w.wal.entries[w.peers[c].players[e]]))
  {
    hide WalPacket, DropPlayer;
    assert w.wal.entries[w.peers[c].players[e]] in w.wal.entries;
  }

  lemma PullDeliver(w: World, c: nat, pkt: Packet)
    requires Inv(w) && c in w.peers && w.peers[c].up && w.peers[c].epoch in w.peers[c].players
    requires w.peers[c].down == [pkt] && pkt.op == OP_WAL
    ensures var w' := Apply(w, Deliver(c, W.Done, true));
            && Inv(w') && Pulled(w, w', c)
            && |w'.peers[c].core.wal.entries| == |w.peers[c].core.wal.entries| + 1
  {
    hide Delivered, Apply, Inv, PeerInv, GoodLog, KeyOf;
    StepKeeps(w, Deliver(c, W.Done, true));
    DeliverPuts(w, c, true);
    PeerOf(w, c);
    DeliverWalEffect(w.wal.entries, w.peers[c], true);
  }

  lemma {:induction false} PullAll(w: World, c: nat)
    requires Inv(w) && Ready(w, c) && !w.torn && W.Sound(w.wal)
    ensures |w.peers[c].core.wal.entries| <= |w.wal.entries|
    ensures var w' := Run(w, Pull(c, w.peers[c].epoch, |w.wal.entries| - |w.peers[c].core.wal.entries|));
            && Inv(w') && Pulled(w, w', c) && w'.peers[c].core.wal.entries == w.wal.entries
    decreases |w.wal.entries| - |w.peers[c].core.wal.entries|
  {
    hide Apply, Run, Inv, W.Sound, PeerInv;
    PeerOf(w, c);
    var e, n := w.peers[c].epoch, |w.wal.entries| - |w.peers[c].core.wal.entries|;
    if n == 0 {
      RunNothing(w);
    } else {
      var s, t := StreamOut(c, e), Deliver(c, W.Done, true);
      PullOne(w, c);
      PullAll(Apply(Apply(w, s), t), c);
      RunCons(Apply(w, s), t, Pull(c, e, n - 1));
      RunCons(w, s, [t] + Pull(c, e, n - 1));
      assert Pull(c, e, n) == [s] + ([t] + Pull(c, e, n - 1));
    }
  }

  lemma RunNothing(w: World)
    ensures Run(w, []) == w
  {
  }

  lemma {:induction false} PullOnlyOf(c: nat, epoch: nat, n: nat)
    ensures OnlyOf(Pull(c, epoch, n), c)
  {
    if n > 0 {
      PullOnlyOf(c, epoch, n - 1);
    }
  }

  /** A client reconnects and gets the whole log; its queue gets no longer, and nobody else notices. */
  lemma CatchUp(w: World, c: nat) returns (more: seq<Step>)
    requires Inv(w) && c in w.peers && w.peers[c].running && !w.torn
    ensures OnlyOf(more, c)
    ensures var w' := Run(w, more);
            && Inv(w') && !w'.torn && w'.wal.entries == w.wal.entries
            && c in w'.peers && w'.peers[c].running && CaughtUp(w', c) && w'.peers[c].core.wal.entries == w.wal.entries
            && Within(w'.peers[c].core.queue.live, w.peers[c].core.queue.live)
  {
    hide Run, Apply, Inv, PeerInv, W.Sound;
    var e := w.peers[c].epoch + 1;
    var w1 := Run(w, Reconnect(c, e));
    ReconnectWorks(w, c);
    ServerSound(w1);
    PullAll(w1, c);
    var n := |w1.wal.entries| - |w1.peers[c].core.wal.entries|;
    var pull := Pull(c, w1.peers[c].epoch, n);
    RunConcat(w, Reconnect(c, e), pull);
    PullOnlyOf(c, w1.peers[c].epoch, n);
    AllPulled(Run(w1, pull), c);
    more := Reconnect(c, e) + pull;
  }

  lemma AllPulled(w: World, c: nat)
    requires Inv(w) && Ready(w, c) && w.peers[c].core.wal.entries == w.wal.entries
    ensures CaughtUp(w, c)
  {
    PeerOf(w, c);
  }

  /** Whatever has happened, a running client whose server can still be opened can reconnect and end
      up with the whole log of the server, which does not change meanwhile. */
  lemma CanCatchUp(w: World, c: nat)
    requires Reached(w) && c in w.peers && w.peers[c].running && !w.torn
    ensures exists more :: var w' := Run(w, more);
              c in w'.peers && w'.wal.entries == w.wal.entries && w'.peers[c].core.wal.entries == w.wal.entries
  {
    hide Run, Apply;
    ReachedInv(w);
    var more := CatchUp(w, c);
    var w' := Run(w, more);
    assert c in w'.peers && w'.wal.entries == w.wal.entries && w'.peers[c].core.wal.entries == w.wal.entries;
  }

  // ---- Getting an entry through --------------------------------------------

  /** The rest of the way of one entry, on a fresh connection. */
  function Send(c: nat, epoch: nat, data: seq<byte>, key: Key): seq<Step> {
    [Resend(c, data), PumpOut(c, data), ServerRecv(c, epoch, data, W.Done), AckOut(c, epoch, key)]
  }

  lemma SendOnlyOf(c: nat, epoch: nat, data: seq<byte>, key: Key)
    ensures OnlyOf(Send(c, epoch, data, key), c)
  {
  }

  lemma SendEffect(w: World, c: nat, data: seq<byte>, key: Key)
    requires Ready(w, c) && data in w.peers[c].resend && HasRoom(w.wal) && Carries(data, key)
    ensures var w' := Run(w, Send(c, w.peers[c].epoch, data, key));
            && c in w'.peers && w'.wal == W.AppendState(w.wal, Parse(data).value, W.Done) && w'.torn == w.torn
            && w'.peers[c].up && w'.peers[c].down == [AckPacket(key)] && w'.peers[c].core == w.peers[c].core
            && w'.peers[c].running == w.peers[c].running
  {
    hide W.AppendState, Parse, Apply;
    var p, e := w.peers[c], w.peers[c].epoch;
    RunFour(w, Resend(c, data), PumpOut(c, data), ServerRecv(c, e, data, W.Done), AckOut(c, e, key));
    var w2 := Apply(Apply(w, Resend(c, data)), PumpOut(c, data));
    var q := p.(outbox := p.outbox + {data}, uplink := p.uplink + {(e, data)});
    assert w2 == Put(w, c, q) by { PumpEffect(w, c, data); }
    RecvEffect(w2, c, e, data, key);
    AckOutEffect(Apply(w2, ServerRecv(c, e, data, W.Done)), c, e, key);
  }

  lemma PumpEffect(w: World, c: nat, data: seq<byte>)
    requires c in w.peers && w.peers[c].up && data in w.peers[c].resend && Parse(data).Ok? && |data| <= MAX_DATA
    ensures var p := w.peers[c];
            Apply(Apply(w, Resend(c, data)), PumpOut(c, data))
            == Put(w, c, p.(outbox := p.outbox + {data}, uplink := p.uplink + {(p.epoch, data)}))
  {
    hide Parse;
    var p := w.peers[c];
    assert Apply(w, Resend(c, data)) == Put(w, c, p.(outbox := p.outbox + {data}));
  }

  lemma RecvEffect(w: World, c: nat, e: nat, data: seq<byte>, key: Key)
    requires Receives(w, c, e, data) && Carries(data, key)
    ensures Apply(w, ServerRecv(c, e, data, W.Done))
         == Put(w, c, Owing(w.peers[c], e, key)).(wal := W.AppendState(w.wal, Parse(data).value, W.Done))
  {
    hide W.AppendState, Parse, DropPlayer;
    KnownParse(data);
  }

  lemma KnownParse(data: seq<byte>)
    requires Parse(data).Ok?
    ensures Known(Parse(data).value)
    ensures forall s :: W.AppendResult(s, Parse(data).value, W.Done).Ok?
  {
  }

  lemma AckOutEffect(w: World, c: nat, e: nat, key: Key)
    requires c in w.peers && e in w.peers[c].players && (e, key) in w.peers[c].owed
    ensures Apply(w, AckOut(c, e, key)) == Put(w, c, Acked(w.peers[c], e, key))
  {
  }

  /** The acknowledgement in front clears the entry from the queue. */
  lemma AckEffect(w: World, c: nat, key: Key)
    requires c in w.peers && w.peers[c].up && w.peers[c].down == [AckPacket(key)]
    requires key in w.peers[c].core.queue.live
    ensures var w' := Apply(w, Deliver(c, W.Done, true));
            && c in w'.peers && w'.wal == w.wal && w'.torn == w.torn
            && w'.peers[c].running == w.peers[c].running
            && w'.peers[c].core.queue.live == w.peers[c].core.queue.live - {key}
  {
    hide Delivered;
    DeliverPuts(w, c, true);
    AckDelivered(w.peers[c], key);
  }

  lemma AckDelivered(p: Peer, key: Key)
    requires p.down == [AckPacket(key)] && key in p.core.queue.live
    ensures Delivered(p, W.Done, true).core.queue.live == p.core.queue.live - {key}
    ensures Delivered(p, W.Done, true).running == p.running
  {
    hide ParseServerWal;
    assert |p.core.queue.live| != 0;
  }

  lemma TakeWorks(w: World, c: nat)
    requires Inv(w) && c in w.peers && w.peers[c].running
    ensures var w' := Apply(w, TakePending(c));
            && Inv(w') && w' == Put(w, c, w.peers[c].(resend := w.peers[c].core.queue.live.Values))
  {
    hide Inv;
    StepKeeps(w, TakePending(c));
    var p := w.peers[c];
    assert TookPending(p).resend == p.core.queue.live.Values;
    assert Apply(w, TakePending(c)) == Put(w, c, TookPending(p));
  }

  lemma LogHas(s: W.State, x: Entry)
    requires W.Sound(s) && Known(x)
    ensures var t := W.AppendState(s, x, W.Done);
            && Logged(t.entries, KeyOf(x))
            && t.entries == if Logged(s.entries, KeyOf(x)) then s.entries else s.entries + [x]
  {
    if KeyOf(x) !in s.keys {
      W.KeySetSnoc(s.entries, x);
    }
  }

  /** The log after an entry with this key has arrived. */
  function LogWith(log: seq<Entry>, key: Key, x: Entry): seq<Entry> {
    if Logged(log, key) then log else log + [x]
  }

  lemma LogWithSent(s: W.State, data: seq<byte>, key: Key)
    requires W.Sound(s) && Carries(data, key)
    ensures W.AppendState(s, Parse(data).value, W.Done).entries == LogWith(s.entries, key, Parse(data).value)
    ensures Logged(W.AppendState(s, Parse(data).value, W.Done).entries, key)
  {
    KnownParse(data);
    LogHas(s, Parse(data).value);
  }

  /** An entry of the queue reaches the server, and its acknowledgement is on the way back. */
  lemma Transmit(w: World, c: nat, data: seq<byte>, key: Key) returns (more: seq<Step>)
    requires Inv(w) && c in w.peers && w.peers[c].running && data in w.peers[c].core.queue.live.Values
    requires Carries(data, key) && !w.torn && HasRoom(w.wal)
    ensures OnlyOf(more, c)
    ensures var w' := Run(w, more);
            && c in w'.peers && !w'.torn
            && w'.wal.entries == LogWith(w.wal.entries, key, Parse(data).value) && Logged(w'.wal.entries, key)
            && w'.peers[c].up && w'.peers[c].down == [AckPacket(key)] && w'.peers[c].core == w.peers[c].core
            && w'.peers[c].running
  {
    hide Run, Apply, Inv, Parse, Carries, W.Sound, W.AppendState, AckPacket, LogWith, Logged, HelloNames, Send;
    var w1 := Apply(w, TakePending(c));
    TakeWorks(w, c);
    var again := Reconnect(c, w1.peers[c].epoch + 1);
    ReconnectWorks(w1, c);
    var w2 := Run(w1, again);
    var send := Send(c, w2.peers[c].epoch, data, key);
    ServerSound(w2);
    SendEffect(w2, c, data, key);
    LogWithSent(w2.wal, data, key);
    RunConcat(w1, again, send);
    RunCons(w, TakePending(c), again + send);
    SendOnlyOf(c, w2.peers[c].epoch, data, key);
    more := [TakePending(c)] + (again + send);
  }

  /** ... and then the acknowledgement arrives. */
  lemma GetThrough(w: World, c: nat, key: Key) returns (more: seq<Step>)
    requires Inv(w) && c in w.peers && w.peers[c].running && key in w.peers[c].core.queue.live
    requires Carries(w.peers[c].core.queue.live[key], key) && !w.torn && HasRoom(w.wal)
    ensures OnlyOf(more, c)
    ensures var w' := Run(w, more);
            && c in w'.peers && !w'.torn && w'.peers[c].running
            && w'.wal.entries == LogWith(w.wal.entries, key, Parse(w.peers[c].core.queue.live[key]).value)
            && Logged(w'.wal.entries, key)
            && w'.peers[c].core.queue.live == w.peers[c].core.queue.live - {key}
  {
    hide Run, Apply, Inv, Parse, Carries, AckPacket;
    var sent := Transmit(w, c, w.peers[c].core.queue.live[key], key);
    var ack := Deliver(c, W.Done, true);
    AckEffect(Run(w, sent), c, key);
    RunOne(Run(w, sent), ack);
    RunConcat(w, sent, [ack]);
    more := sent + [ack];
  }

  /** An entry waiting in the queue of a running client can reach the server and be cleared, unless
      the server's log is full or its file torn. All that is asked of the entry is that it is queued
      under its own key, as QueueCoherent says of every entry that was not salvaged. */
  lemma CanGetThrough(w: World, c: nat, key: Key)
    requires Reached(w) && c in w.peers && w.peers[c].running && key in w.peers[c].core.queue.live
    requires var data := w.peers[c].core.queue.live[key]; data !in w.peers[c].salvaged || Carries(data, key)
    requires !w.torn && HasRoom(w.wal)
    ensures exists more :: var w' := Run(w, more);
              c in w'.peers && Logged(w'.wal.entries, key) && key !in w'.peers[c].core.queue.live
  {
    hide Run, Apply;
    if w.peers[c].core.queue.live[key] !in w.peers[c].salvaged {
      QueueCoherent(w, c, key);
    }
    ReachedInv(w);
    var more := GetThrough(w, c, key);
    var w' := Run(w, more);
    assert c in w'.peers && Logged(w'.wal.entries, key) && key !in w'.peers[c].core.queue.live;
  }

  // ---- When nothing more gets through --------------------------------------

  /** A server whose log is full, or torn by a crash, takes no entry any more; and a torn log is never
      opened again. */
  predicate Shut(w: World) {
    w.torn || !HasRoom(w.wal)
  }

  lemma ShutStep(w: World, s: Step)
    requires Inv(w) && Shut(w)
    ensures Apply(w, s).wal.entries == w.wal.entries && Shut(Apply(w, s))
    ensures w.torn ==> Apply(w, s).torn && !Apply(w, s).open && Apply(w, s).wal == w.wal
  {
    hide Inv, Apply, PeerStep;
    NobodyReceives(w);
    if ServerStep(s) {
      ServerStepLog(w, s);
      if w.torn { TornServerStep(w, s); }
    } else {
      ClientStepWal(w, s);
      if w.torn { TornMeansClosed(w); }
    }
  }

  lemma NobodyReceives(w: World)
    requires Inv(w) && Shut(w)
    ensures forall c, e, data :: !Receives(w, c, e, data)
  {
    hide Inv;
    forall c, e, data | Receives(w, c, e, data) ensures false {
      PlayerMeansOpen(w, c, e);
    }
  }

  lemma TornMeansClosed(w: World)
    requires Inv(w) && w.torn
    ensures !w.open && W.Open(w.wal.file).Err?
    ensures forall c, e :: c in w.peers ==> e !in w.peers[c].players
  {
    forall c, e | c in w.peers && e in w.peers[c].players ensures false {
      PlayerMeansOpen(w, c, e);
    }
  }

  lemma TornServerStep(w: World, s: Step)
    requires Inv(w) && w.torn && ServerStep(s)
    ensures Apply(w, s).torn && !Apply(w, s).open && Apply(w, s).wal == w.wal
  {
    hide Inv, Parse, ParseClientHello, W.Open, Dropped, Refused, ServerGone;
    NobodyReceives(w);
    TornMeansClosed(w);
  }

  lemma ClientStepWal(w: World, s: Step)
    requires !ServerStep(s)
    ensures Apply(w, s).wal == w.wal && Apply(w, s).torn == w.torn && Apply(w, s).open == w.open
  {
    hide PeerStep, Reported, NewPeer;
  }

  lemma {:induction false} ShutForever(w: World, more: seq<Step>)
    requires Inv(w) && Shut(w)
    ensures Run(w, more).wal.entries == w.wal.entries
    ensures w.torn ==> Run(w, more).torn && !Run(w, more).open && Run(w, more).wal == w.wal
    decreases |more|
  {
    hide Inv, Apply, Shut;
    if w.torn { TornMeansClosed(w); }
    if more != [] {
      StepKeeps(w, more[0]);
      ShutStep(w, more[0]);
      ShutForever(Apply(w, more[0]), more[1..]);
    }
  }

  /** So an entry in the queue of a running client that is not in the server's log yet can reach it if
      and only if that log is neither full nor torn. */
  lemma CanBeLoggedIff(w: World, c: nat, key: Key)
    requires Reached(w) && c in w.peers && w.peers[c].running && Held(w.peers[c].core.queue.live, key)
    requires !Logged(w.wal.entries, key)
    ensures (exists more :: Logged(Run(w, more).wal.entries, key)) <==> !w.torn && HasRoom(w.wal)
  {
    hide Run, Apply, Reached, Inv, Carries, HasRoom;
    ReachedInv(w);
    if !w.torn && HasRoom(w.wal) {
      CanGetThrough(w, c, key);
    } else {
      forall more ensures !Logged(Run(w, more).wal.entries, key) {
        ShutForever(w, more);
      }
    }
  }

  lemma ServerSound(w: World)
    requires Inv(w) && !w.torn
    ensures W.Sound(w.wal) && GoodLog(w.wal.entries)
  {
  }

  lemma SystemIsInv(w: World)
    requires SystemInv(w)
    ensures Inv(w)
  {
  }
}
