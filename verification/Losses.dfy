/** What the client promises and does not keep: an acknowledgement that comes too early, and what a
    start on a misaligned queue file loses and invents. */
module Losses {
  import opened Wrappers
  import opened Bytes
  import opened WalEntry
  import opened Wire
  import opened ClientState
  import opened Protocol
  import opened Links
  import opened Delivery
  import opened Theorems
  import opened Progress
  import Ipc
  import Q = QueueState
  import W = WalState

  // ---- The early acknowledgement -------------------------------------------

  /** The client acknowledges a report to its game without looking at the result of the queue write.
      A report is lost if no entry of its key is in the queue, in the log or under way. */
  predicate Lost(w: World, c: nat, key: Key)
    requires c in w.peers
  {
    var p := w.peers[c];
    && !Logged(w.wal.entries, key) && !Held(p.core.queue.live, key)
    && (forall d <- p.outbox + p.resend :: !Carries(d, key))
    && (forall x <- p.uplink :: !Carries(x.1, key))
  }

  /** The acknowledgement goes out in any case. What it tells the game is true exactly when the entry was
      written and nothing else was queued under its key, or an entry of that key was safe already. */
  lemma AckIsTrueIff(w: World, c: nat, payload: seq<byte>, nonce: uint32, io: Q.AddIo, room: bool)
    requires c in w.peers && w.peers[c].running
    requires Ipc.ParseWalIn(payload).Ok? && EntryFor(w.peers[c].me, Ipc.ParseWalIn(payload).value, nonce).Ok?
    ensures var p, msg := w.peers[c], Ipc.ParseWalIn(payload).value;
            var e := EntryFor(p.me, msg, nonce).value;
            var w' := Apply(w, GameWal(c, payload, nonce, io, room));
            && Known(e) && c in w'.peers
            && w'.peers[c].toGame == p.toGame + [AckMessage(msg.token)]
            && (Logged(w'.wal.entries, KeyOf(e)) || Held(w'.peers[c].core.queue.live, KeyOf(e))
                <==> (io == Q.Added && KeyOf(e) !in p.core.queue.live)
                     || Logged(w.wal.entries, KeyOf(e)) || Held(p.core.queue.live, KeyOf(e)))
  {
    hide EntryFor, Carries, KeyOf;
    var p, msg := w.peers[c], Ipc.ParseWalIn(payload).value;
    EntryForNormal(p.me, msg, nonce);
    var e := EntryFor(p.me, msg, nonce).value;
    assert Apply(w, GameWal(c, payload, nonce, io, room))
        == Put(w, c, Reported(p, msg.token, e, io, room)).(reported := w.reported + {e});
    ReportHolds(p, msg.token, e, io, room);
  }

  lemma ReportHolds(p: Peer, token: uint32, e: Entry, io: Q.AddIo, room: bool)
    requires Known(e)
    ensures var q, key := Reported(p, token, e, io, room), KeyOf(e);
            && q.toGame == p.toGame + [AckMessage(token)]
            && (Held(q.core.queue.live, key)
                <==> (io == Q.Added && key !in p.core.queue.live) || Held(p.core.queue.live, key))
  {
    hide Carries, KeyOf, W.Payload, Q.Left, Q.Untorn;
    PayloadCarries(e);
  }

  // ---- A misaligned queue file ---------------------------------------------

  function EventOf(me: Identity, id: uint32): (e: Entry)
    ensures IsNormal(e)
  {
    Entry(WAL_EVENT, me.playerID, me.playerName, me.worldID, ZERO_ITEM, id)
  }

  function ReportOf(id: uint32): seq<byte> {
    BE32(7) + [WAL_EVENT] + BE32(id)
  }

  lemma ReportOfEvent(me: Identity, id: uint32)
    ensures Ipc.ParseWalIn(ReportOf(id)).Ok? && Ipc.ParseWalIn(ReportOf(id)).value.token == 7
    ensures EntryFor(me, Ipc.ParseWalIn(ReportOf(id)).value, 0) == Ok(EventOf(me, id))
  {
    assert ReportOf(id)[5..] == BE32(id) && ReportOf(id)[4] == WAL_EVENT;
    assert BE32(id)[0..4] == BE32(id);
    BE32Inverse(id);
    BE32Inverse(7);
    assert ReportOf(id)[0..4] == BE32(7);
  }

  /** In whatever state: an event that is nowhere, reported while the queue cannot be written and the
      channel is full, is acknowledged to the game and is still nowhere. */
  lemma AckedAndLost(w: World, c: nat, id: uint32)
    requires c in w.peers && w.peers[c].running && Lost(w, c, KeyOf(EventOf(w.peers[c].me, id)))
    ensures var e, w' := EventOf(w.peers[c].me, id), Apply(w, GameWal(c, ReportOf(id), 0, Q.SeekFails, false));
            && c in w'.peers && w'.peers[c].toGame == w.peers[c].toGame + [AckMessage(7)]
            && e in w'.reported && Lost(w', c, KeyOf(e))
  {
    hide ReportOf, EventOf, EntryFor, Q.Untorn, KeyOf, Carries;
    ReportOfEvent(w.peers[c].me, id);
  }

  lemma EventLayout(me: Identity, id: uint32)
    requires me.worldID != 0
    ensures var d := W.Payload(EventOf(me, 0));
            && |d| == |W.Payload(EventOf(me, id))| == EVENT_LENGTH
            && d[26..] == LE32(0) && d[10..26] != KeyOf(EventOf(me, id))
  {
    assert W.Payload(EventOf(me, 0))[10..26][15] == me.worldID;
    assert KeyOf(EventOf(me, id))[15] == 0;
  }

  /** What a start takes for the first record: the second one from its key on. */
  function Misread(me: Identity): seq<byte> {
    KeyOf(EventOf(me, 0)) + LE32(EVENT_LENGTH) + W.Payload(EventOf(me, 0))[..10]
  }

  /** ... and for the key of the second: 16 bytes out of its payload. */
  function Misplaced(me: Identity): Key {
    W.Payload(EventOf(me, 0))[10..26]
  }

  /** What a start makes of the two records. */
  function JunkQueue(me: Identity, id: uint32): Q.Live {
    map[KeyOf(EventOf(me, id)) := Misread(me)][Misplaced(me) := []]
  }

  /** The event that the misread record parses to: its player id starts with the world of the client,
      and its world and number come out of the middle of the client's player id. */
  function Phantom(me: Identity): (e: Entry)
    ensures IsNormal(e)
  {
    Entry(WAL_EVENT, [me.worldID] + Zeros(14) + [30], Zeros(3) + [WAL_EVENT] + me.playerID[..4],
          me.playerID[4], ZERO_ITEM, FromLE32(me.playerID[5..9]))
  }

  lemma MisreadParses(me: Identity)
    ensures Carries(Misread(me), KeyOf(Phantom(me))) && Parse(Misread(me)) == Ok(Phantom(me))
  {
    var e := EventOf(me, 0);
    var d, y, dy := Misread(me), KeyOf(e), W.Payload(e);
    assert y == [WAL_EVENT, me.worldID] + Zeros(14);
    PrefixFields(e, LE32(0));
    assert dy[..10] == [WAL_EVENT] + me.playerID[..9];
    MisreadFields(me, d);
  }

  lemma MisreadFields(me: Identity, d: seq<byte>)
    requires d == [WAL_EVENT, me.worldID] + Zeros(14) + LE32(EVENT_LENGTH) + ([WAL_EVENT] + me.playerID[..9])
    ensures Carries(d, KeyOf(Phantom(me))) && Parse(d) == Ok(Phantom(me))
  {
    assert LE32(EVENT_LENGTH) == [30, 0, 0, 0];
    assert d[0] == WAL_EVENT && |d| == 30;
    assert d[1..17] == [me.worldID] + Zeros(14) + [30];
    assert d[17..25] == Zeros(3) + [WAL_EVENT] + me.playerID[..4];
    assert d[25] == me.playerID[4];
    assert d[26..30] == me.playerID[5..9];
  }

  /** Neither record is under its own key. */
  lemma JunkHoldsNothing(me: Identity, id: uint32)
    requires me.worldID != 0
    ensures var m, key := JunkQueue(me, id), KeyOf(EventOf(me, id));
            && key in m && m[key] == Misread(me) && Misread(me) in m.Values
            && Misplaced(me) in m && m[Misplaced(me)] == [] && Parse([]).Err?
            && (me.playerID[4] != me.worldID ==> !Held(m, key))
            && (id != 0 || me.playerID[4] != me.worldID ==> !Held(m, KeyOf(EventOf(me, 0))))
  {
    hide KeyOf, W.Payload, Misread, Parse;
    EventLayout(me, id);
    EventLayout(me, 0);
    MisreadParses(me);
    KeyInjective(Phantom(me), EventOf(me, id));
    KeysDiffer(me, id);
    var m, key := JunkQueue(me, id), KeyOf(EventOf(me, id));
    assert key in m && m[key] == Misread(me);
    TooShortToParse();
  }

  lemma TooShortToParse()
    ensures Parse([]).Err?
  {
  }

  /** Two reports of a client with an empty queue, the first write torn. */
  function TwoReports(p: Peer, id: uint32): Peer {
    Reported(Reported(p, 7, EventOf(p.me, id), Q.DataFails(0), false), 7, EventOf(p.me, 0), Q.Added, false)
  }

  lemma RestartLoses(p: Peer, id: uint32)
    requires p.running && p.core.queue == Q.EMPTY && p.me.worldID != 0
    requires W.Open(p.core.wal.file).Ok?
    ensures var t, q, key := TwoReports(p, id), Started(Stopped(TwoReports(p, id)), p.me), KeyOf(EventOf(p.me, 0));
            && key in t.core.queue.live && key in t.accepted
            && q.running && q.clean && q.core.queue.live == JunkQueue(p.me, id)
            && key in q.accepted && (!Held(JunkQueue(p.me, id), key) ==> key in q.dropped)
            && q.outbox == {} == q.resend && q.uplink == p.uplink && q.me == p.me && q.toGame == t.toGame
  {
    hide W.Open, KeyOf, W.Payload, EventOf, Q.AddState, Q.Load, Held;
    EventLayout(p.me, id);
    Q.MisalignedLoad(KeyOf(EventOf(p.me, id)), W.Payload(EventOf(p.me, id)),
                     KeyOf(EventOf(p.me, 0)), W.Payload(EventOf(p.me, 0)));
  }

  /** From every reachable state in which the queue is empty, a key that is nowhere can be reported,
      accepted by the queue without an error, and be nowhere again after a restart. With `id` 0 it is one
      event that is reported twice, and what the start finds under its key is something else. */
  lemma AcceptedAndLost(w: World, c: nat, id: uint32)
    requires Reached(w) && c in w.peers && w.peers[c].running && w.peers[c].core.queue == Q.EMPTY
    requires var me := w.peers[c].me; me.worldID != 0 && (id == 0 ==> me.playerID[4] != me.worldID)
    requires Lost(w, c, KeyOf(EventOf(w.peers[c].me, 0)))
    ensures var key := KeyOf(EventOf(w.peers[c].me, 0));
            var w1 := Run(w, [GameWal(c, ReportOf(id), 0, Q.DataFails(0), false),
                              GameWal(c, ReportOf(0), 0, Q.Added, false)]);
            var w2 := Run(w1, [Stop(c), Start(c, w.peers[c].me)]);
            && c in w1.peers && key in w1.peers[c].core.queue.live && key in w1.peers[c].accepted
            && c in w2.peers && w2.peers[c].running && key in w2.peers[c].accepted && key in w2.peers[c].dropped
            && Lost(w2, c, key)
  {
    hide Reported, KeyOf, Reached, Inv, EntryFor, ReportOf, Started, Stopped, W.Open, EventOf, Run, Apply, Held,
         JunkQueue, Carries;
    var p := w.peers[c];
    var x, y := GameWal(c, ReportOf(id), 0, Q.DataFails(0), false), GameWal(c, ReportOf(0), 0, Q.Added, false);
    RunTwo(w, x, y);
    RunTwo(Apply(Apply(w, x), y), Stop(c), Start(c, w.peers[c].me));
    TwoReportsPut(w, c, id);
    ClientOpens(w, c);
    RestartLoses(p, id);
    JunkHoldsNothing(p.me, id);
    RestartPuts(Apply(Apply(w, x), y), c, w.peers[c].me);
  }

  /** Nor is it over then. Report the event whose write was torn once more: `Add` returns nil, because
      its key is there, and nothing is added, because what is there is something else. No write is torn
      now, and yet the key is accepted, the game is told so, and the event is nowhere. */
  lemma AcceptedOverJunk(w: World, c: nat, id: uint32, io: Q.AddIo)
    requires Reached(w) && c in w.peers && w.peers[c].running && w.peers[c].core.queue == Q.EMPTY
    requires var me := w.peers[c].me; me.worldID != 0 && me.playerID[4] != me.worldID
    requires Lost(w, c, KeyOf(EventOf(w.peers[c].me, id)))
    ensures var key := KeyOf(EventOf(w.peers[c].me, id));
            var w2 := Run(w, RebootSteps(c, w.peers[c].me, id));
            var w3 := Apply(w2, GameWal(c, ReportOf(id), 0, io, false));
            && c in w2.peers && w2.peers[c].clean && c in w3.peers && w3.peers[c].clean
            && w3.peers[c].toGame == w2.peers[c].toGame + [AckMessage(7)]
            && key in w3.peers[c].accepted && key in w3.peers[c].dropped && Lost(w3, c, key)
  {
    hide Reported, KeyOf, Reached, Inv, EntryFor, ReportOf, Started, Stopped, W.Open, EventOf, Run, Apply, Held,
         JunkQueue, Carries, Phantom, RebootSteps;
    var p := w.peers[c];
    var w2 := Run(w, RebootSteps(c, w.peers[c].me, id));
    Rebooted(w, c, id);
    ClientOpens(w, c);
    RestartLoses(p, id);
    JunkHoldsNothing(p.me, id);
    OneReportPuts(w2, c, id, io);
    ReportOver(w2.peers[c], EventOf(p.me, id), io);
  }

  /** What a report does when there is something else under its key. */
  lemma ReportOver(p: Peer, e: Entry, io: Q.AddIo)
    requires Known(e) && KeyOf(e) in p.core.queue.live && !Held(p.core.queue.live, KeyOf(e))
    ensures var q := Reported(p, 7, e, io, false);
            && q.core == p.core && q.clean == p.clean && q.toGame == p.toGame + [AckMessage(7)]
            && q.outbox == p.outbox && q.resend == p.resend && q.uplink == p.uplink
            && KeyOf(e) in q.accepted && KeyOf(e) in q.dropped
  {
    hide Carries, KeyOf, W.Payload, Q.Left;
  }

  lemma OneReportPuts(w: World, c: nat, id: uint32, io: Q.AddIo)
    requires c in w.peers && w.peers[c].running
    ensures var w' := Apply(w, GameWal(c, ReportOf(id), 0, io, false));
            && c in w'.peers && w'.peers[c] == Reported(w.peers[c], 7, EventOf(w.peers[c].me, id), io, false)
            && w'.wal == w.wal
  {
    hide EntryFor, ReportOf, EventOf, Reported, KeyOf;
    ReportOfEvent(w.peers[c].me, id);
  }

  lemma RunTwo(w: World, x: Step, y: Step)
    ensures Run(w, [x, y]) == Apply(Apply(w, x), y)
  {
    hide Apply, Run;
    RunCons(w, x, [y]);
    RunOne(Apply(w, x), y);
    assert [x, y] == [x] + [y];
  }

  lemma TwoReportsPut(w: World, c: nat, id: uint32)
    requires c in w.peers && w.peers[c].running
    ensures var w' := Apply(Apply(w, GameWal(c, ReportOf(id), 0, Q.DataFails(0), false)),
                            GameWal(c, ReportOf(0), 0, Q.Added, false));
            && c in w'.peers && w'.peers[c] == TwoReports(w.peers[c], id) && w'.wal == w.wal && w'.torn == w.torn
            && w'.reported == w.reported + {EventOf(w.peers[c].me, id), EventOf(w.peers[c].me, 0)}
  {
    hide EntryFor, ReportOf, EventOf, Q.AddState, Q.Untorn, KeyOf;
    ReportOfEvent(w.peers[c].me, id);
    ReportOfEvent(w.peers[c].me, 0);
  }

  lemma RestartPuts(w: World, c: nat, me: Identity)
    requires c in w.peers
    ensures var w' := Apply(Apply(w, Stop(c)), Start(c, me));
            && c in w'.peers && w'.peers[c] == Started(Stopped(w.peers[c]), me) && w'.wal == w.wal && w'.torn == w.torn
            && w'.reported == w.reported
  {
    hide Started, Stopped;
  }

  lemma ClientOpens(w: World, c: nat)
    requires Reached(w) && c in w.peers && w.peers[c].running
    ensures W.Open(w.peers[c].core.wal.file).Ok?
  {
    ReachedPeer(w, c);
    PrefixNormal(w.wal.entries, w.peers[c].core.wal.entries);
    W.ReopenSame(w.peers[c].core.wal);
  }

  // ---- An invented entry ---------------------------------------------------

  /** From every reachable state in which a client's queue is empty, an entry that no game ever
      reported can get into the server's log. */
  lemma InventedAndLogged(w: World, c: nat, id: uint32)
    requires Reached(w) && c in w.peers && w.peers[c].running && w.peers[c].core.queue == Q.EMPTY
    requires w.peers[c].me.worldID != 0 && !w.torn && HasRoom(w.wal)
    requires var me := w.peers[c].me;
             && me.playerID != Phantom(me).playerID && Phantom(me) !in w.reported
             && !Logged(w.wal.entries, KeyOf(Phantom(me)))
    ensures exists more :: var w' := Run(w, more);
              Phantom(w.peers[c].me) in w'.wal.entries && Phantom(w.peers[c].me) !in w'.reported
  {
    hide Run, Reached, Phantom, EventOf, Inv, SystemInv, KeyOf, Misread, Started, Stopped, TwoReports, Logged,
         RebootSteps;
    var me := w.peers[c].me;
    var first := RebootSteps(c, w.peers[c].me, id);
    var w2 := Run(w, first);
    Rebooted(w, c, id);
    ReachedInv(w);
    RunKeepsSystem(w, first);
    SystemIsInv(w2);
    var more := SendPhantom(w2, c, me);
    RunConcat(w, first, more);
    NamedAfter(me, id);
    var w' := Run(w, first + more);
    assert Phantom(me) in w'.wal.entries && Phantom(me) !in w'.reported;
  }

  lemma SendPhantom(w: World, c: nat, me: Identity) returns (more: seq<Step>)
    requires Inv(w) && c in w.peers && w.peers[c].running && !w.torn && HasRoom(w.wal)
    requires Misread(me) in w.peers[c].core.queue.live.Values && !Logged(w.wal.entries, KeyOf(Phantom(me)))
    ensures Phantom(me) in Run(w, more).wal.entries && Run(w, more).reported == w.reported
  {
    hide Run, Inv, Phantom, Misread, KeyOf, Carries, Parse, OnlyOf, Logged;
    MisreadParses(me);
    more := Transmit(w, c, Misread(me), KeyOf(Phantom(me)));
    RunOthers(w, more, c);
  }

  lemma NamedAfter(me: Identity, id: uint32)
    ensures EventOf(me, id).playerID == me.playerID == EventOf(me, 0).playerID
  {
  }

  /** Both reports and the restart. */
  function RebootSteps(c: nat, me: Identity, id: uint32): seq<Step> {
    [GameWal(c, ReportOf(id), 0, Q.DataFails(0), false), GameWal(c, ReportOf(0), 0, Q.Added, false),
     Stop(c), Start(c, me)]
  }

  lemma Rebooted(w: World, c: nat, id: uint32)
    requires Reached(w) && c in w.peers && w.peers[c].running && w.peers[c].core.queue == Q.EMPTY
    requires w.peers[c].me.worldID != 0
    ensures var me := w.peers[c].me;
            var w' := Run(w, RebootSteps(c, w.peers[c].me, id));
            && c in w'.peers && w'.peers[c] == Started(Stopped(TwoReports(w.peers[c], id)), w.peers[c].me)
            && w'.wal == w.wal && w'.torn == w.torn
            && w'.reported == w.reported + {EventOf(me, id), EventOf(me, 0)}
            && w'.peers[c].running && Misread(me) in w'.peers[c].core.queue.live.Values
  {
    hide Reported, KeyOf, Reached, Inv, EntryFor, ReportOf, Started, Stopped, W.Open, EventOf, Run, Apply, Misread,
         Held, JunkQueue, Misplaced;
    var x, y := GameWal(c, ReportOf(id), 0, Q.DataFails(0), false), GameWal(c, ReportOf(0), 0, Q.Added, false);
    RunFour(w, x, y, Stop(c), Start(c, w.peers[c].me));
    TwoReportsPut(w, c, id);
    ClientOpens(w, c);
    RestartLoses(w.peers[c], id);
    JunkHoldsNothing(w.peers[c].me, id);
    RestartPuts(Apply(Apply(w, x), y), c, w.peers[c].me);
  }

  // ---- A session that keeps ending -----------------------------------------

  /** The resend loop takes the queue's entries, comes to these data, and ends the session. */
  predicate EndsOn(w: World, c: nat, data: seq<byte>) {
    var w' := Apply(Apply(w, TakePending(c)), Resend(c, data));
    c in w'.peers && !w'.peers[c].running
  }

  /** The resend loop can end a session if and only if the queue holds data that does not parse. */
  lemma ResendEndsIff(w: World, c: nat)
    requires c in w.peers && w.peers[c].running
    ensures (exists data :: EndsOn(w, c, data))
            <==> exists k :: k in w.peers[c].core.queue.live && Parse(w.peers[c].core.queue.live[k]).Err?
  {
    hide Parse, Apply;
    var live := w.peers[c].core.queue.live;
    TakePuts(w, c);
    if data :| EndsOn(w, c, data) {
      ResendIs(Apply(w, TakePending(c)), c, data);
      var k :| k in live && live[k] == data;
    }
    if k :| k in live && Parse(live[k]).Err? {
      ResendIs(Apply(w, TakePending(c)), c, live[k]);
      assert EndsOn(w, c, live[k]);
    }
  }

  predicate ResendPuts(w: World, c: nat, data: seq<byte>) {
    var w' := Apply(w, Resend(c, data));
    && c in w.peers && c in w'.peers
    && w'.peers[c] == if data in w.peers[c].resend then Resent(w.peers[c], data) else w.peers[c]
  }

  lemma ResendIs(w: World, c: nat, data: seq<byte>)
    requires c in w.peers
    ensures ResendPuts(w, c, data)
  {
    hide Parse;
  }

  lemma TakePuts(w: World, c: nat)
    requires c in w.peers && w.peers[c].running
    ensures Apply(w, TakePending(c)) == Put(w, c, TookPending(w.peers[c]))
  {
  }

  /** Such data always comes from a misaligned queue file. */
  lemma UnparsedIsSalvaged(w: World, c: nat, key: Key)
    requires Reached(w) && c in w.peers && w.peers[c].running && key in w.peers[c].core.queue.live
    requires Parse(w.peers[c].core.queue.live[key]).Err?
    ensures w.peers[c].core.queue.live[key] in w.peers[c].salvaged
  {
    hide Reached, Parse;
    if w.peers[c].core.queue.live[key] !in w.peers[c].salvaged {
      QueueCoherent(w, c, key);
    }
  }

  lemma EndsOnIt(w: World, c: nat, key: Key)
    requires c in w.peers && w.peers[c].running && key in w.peers[c].core.queue.live
    requires Parse(w.peers[c].core.queue.live[key]).Err?
    ensures EndsOn(w, c, w.peers[c].core.queue.live[key])
  {
    hide Parse, Apply;
    TakePuts(w, c);
    ResendIs(Apply(w, TakePending(c)), c, w.peers[c].core.queue.live[key]);
  }

  /** The data are under this key in the queue and in its file. */
  predicate Lodged(p: Peer, key: Key, data: seq<byte>) {
    && p.clean && Q.Load(p.core.queue.file).Ok?
    && key in Q.Load(p.core.queue.file).value && Q.Load(p.core.queue.file).value[key] == data
    && (p.running ==> key in p.core.queue.live && p.core.queue.live[key] == data)
  }

  /** The step tears a write of this client, or clears this key from its queue by a packet it handles. */
  predicate Disturbs(w: World, s: Step, c: nat, key: Key)
    requires c in w.peers
  {
    var w' := Apply(w, s);
    && c in w'.peers
    && (!w'.peers[c].clean || (s.Deliver? && s.c == c && w.peers[c].running && key !in w'.peers[c].core.queue.live))
  }

  predicate Undisturbed(w: World, steps: seq<Step>, c: nat, key: Key)
    decreases |steps|
  {
    && c in w.peers
    && (steps != [] ==>
          !Disturbs(w, steps[0], c, key) && Undisturbed(Apply(w, steps[0]), steps[1..], c, key))
  }

  lemma ReportLodged(log: seq<Entry>, p: Peer, token: uint32, e: Entry, io: Q.AddIo, room: bool,
                     key: Key, data: seq<byte>)
    requires Known(e) && p.running && QueueInv(log, p) && Lodged(p, key, data)
    ensures Reported(p, token, e, io, room).clean ==> Lodged(Reported(p, token, e, io, room), key, data)
  {
    hide Q.Load, Held, KeyOf, W.Payload, Q.Left;
    CleanFaithful(log, p);
    Q.AddReload(p.core.queue, KeyOf(e), W.Payload(e), io);
  }

  lemma GameWalLodged(w: World, s: Step, c: nat, key: Key, data: seq<byte>)
    requires SystemInv(w) && c in w.peers && s.GameWal? && s.c == c && Lodged(w.peers[c], key, data)
    ensures var w' := DoGameWal(w, c, s.payload, s.nonce, s.addIo, s.room);
            c in w'.peers && (w'.peers[c].clean ==> Lodged(w'.peers[c], key, data))
  {
    hide SystemInv, EntryFor, Reported, Lodged;
    var p, msg := w.peers[c], Ipc.ParseWalIn(s.payload);
    if p.running && msg.Ok? && EntryFor(p.me, msg.value, s.nonce).Ok? {
      var e := EntryFor(p.me, msg.value, s.nonce).value;
      EntryForNormal(p.me, msg.value, s.nonce);
      assert QueueInv(w.wal.entries, p) by { SystemPeer(w, c); }
      ReportLodged(w.wal.entries, p, msg.value.token, e, s.addIo, s.room, key, data);
    }
  }

  lemma SystemPeer(w: World, c: nat)
    requires SystemInv(w) && c in w.peers
    ensures GoodLog(w.wal.entries) && PeerInv(w.wal.entries, w.peers[c])
    ensures QueueInv(w.wal.entries, w.peers[c]) && OriginInv(w.reported, w.peers[c])
  {
  }

  lemma PeerLodged(log: seq<Entry>, p: Peer, s: Step, key: Key, data: seq<byte>)
    requires GoodLog(log) && PeerInv(log, p) && Lodged(p, key, data) && PeerStep(p, s).clean
    requires s.Deliver? && p.running ==> key in PeerStep(p, s).core.queue.live
    ensures Lodged(PeerStep(p, s), key, data)
  {
    hide GoodLog, PeerInv, W.Open, Q.Load, Delivered;
    if s.Deliver? {
      if p.up && p.down != [] {
        var id, acked := DeliverQueue(log, p, s.io, s.truncateOk);
      }
    } else if !s.Start? {
      hide PeerStep;
      QuietQueue(p, s);
    }
  }

  lemma SameLodged(p: Peer, q: Peer, key: Key, data: seq<byte>)
    requires Lodged(p, key, data) && (SameClient(p, q) || q == p)
    ensures Lodged(q, key, data)
  {
  }

  lemma StepLodged(w: World, s: Step, c: nat, key: Key, data: seq<byte>)
    requires SystemInv(w) && c in w.peers && Lodged(w.peers[c], key, data) && !Disturbs(w, s, c, key)
    ensures c in Apply(w, s).peers && Lodged(Apply(w, s).peers[c], key, data)
  {
    hide SystemInv, Apply, PeerStep, DoGameWal, Lodged;
    SystemPeer(w, c);
    StepOf(w, s, c);
    if ServerStep(s) || s.c != c || s.Join? {
      SameLodged(w.peers[c], Apply(w, s).peers[c], key, data);
    } else if s.GameWal? {
      GameWalLodged(w, s, c, key, data);
    } else {
      PeerLodged(w.wal.entries, w.peers[c], s, key, data);
    }
  }

  lemma {:induction false} RunLodged(w: World, steps: seq<Step>, c: nat, key: Key, data: seq<byte>)
    requires SystemInv(w) && c in w.peers && Lodged(w.peers[c], key, data) && Undisturbed(w, steps, c, key)
    ensures c in Run(w, steps).peers && Lodged(Run(w, steps).peers[c], key, data)
    decreases |steps|
  {
    hide SystemInv, Apply, Lodged, Disturbs;
    if steps != [] {
      SystemStepKeeps(w, steps[0]);
      StepLodged(w, steps[0], c, key, data);
      RunLodged(Apply(w, steps[0]), steps[1..], c, key, data);
    }
  }

  /** However a run goes on, through any number of ends and starts, as long as no write of the client is
      torn and no packet it handles clears the key: if the client runs, the session can end on the data
      again; and if it is stopped and its log file is whole, a start brings it into such a state. */
  lemma EndsAgain(w: World, c: nat, key: Key, steps: seq<Step>, me: Identity)
    requires Reached(w) && c in w.peers && w.peers[c].running && w.peers[c].clean
    requires key in w.peers[c].core.queue.live && Parse(w.peers[c].core.queue.live[key]).Err?
    requires Undisturbed(w, steps, c, key)
    ensures var data, w' := w.peers[c].core.queue.live[key], Run(w, steps);
            && c in w'.peers
            && (w'.peers[c].running ==> EndsOn(w', c, data))
            && (!w'.peers[c].running && !w'.peers[c].walTorn ==>
                  var w2 := Apply(w', Start(c, me));
                  c in w2.peers && w2.peers[c].running && EndsOn(w2, c, data))
  {
    hide Reached, SystemInv, Parse, Apply, Run, W.Open, Q.Load, Undisturbed, EndsOn;
    var data := w.peers[c].core.queue.live[key];
    ReachedInv(w);
    ReachedPeer(w, c);
    CleanFaithful(w.wal.entries, w.peers[c]);
    RunLodged(w, steps, c, key, data);
    RunKeepsSystem(w, steps);
    var w' := Run(w, steps);
    if w'.peers[c].running {
      EndsOnIt(w', c, key);
    } else if !w'.peers[c].walTorn {
      StartPuts(w', c, me);
      LogOpens(w', c);
      EndsOnIt(Apply(w', Start(c, me)), c, key);
    }
  }

  lemma LogOpens(w: World, c: nat)
    requires SystemInv(w) && c in w.peers && !w.peers[c].walTorn
    ensures W.Open(w.peers[c].core.wal.file).Ok?
  {
    hide OriginInv, QueueInv;
    SystemPeer(w, c);
    PrefixNormal(w.wal.entries, w.peers[c].core.wal.entries);
    W.ReopenSame(w.peers[c].core.wal);
  }

  /** From every reachable state in which a client's queue is empty, the same torn write and restart
      leave it in such a state. */
  lemma RestartJams(w: World, c: nat, id: uint32)
    requires Reached(w) && c in w.peers && w.peers[c].running && w.peers[c].core.queue == Q.EMPTY
    requires w.peers[c].me.worldID != 0
    ensures var w', key := Run(w, RebootSteps(c, w.peers[c].me, id)), Misplaced(w.peers[c].me);
            && c in w'.peers && w'.peers[c].running && w'.peers[c].clean
            && key in w'.peers[c].core.queue.live && Parse(w'.peers[c].core.queue.live[key]).Err?
  {
    hide Reported, KeyOf, Reached, Inv, Started, Stopped, W.Open, EventOf, Run, Misread, Held, JunkQueue, Misplaced,
         RebootSteps, Parse;
    Rebooted(w, c, id);
    ClientOpens(w, c);
    RestartLoses(w.peers[c], id);
    JunkHoldsNothing(w.peers[c].me, id);
  }

  // ---- A client that cannot start again ------------------------------------

  /** Stopped and stuck, whatever happens; its accepted key is safe only if somebody else brings it into
      the log. */
  ghost predicate StuckWith(w: World, c: nat, key: Key) {
    && c in w.peers && !w.peers[c].running && !CanStart(w.peers[c])
    && key in w.peers[c].accepted && key !in w.peers[c].dropped
    && (Safe(w, c, key) <==> Logged(w.wal.entries, key))
  }

  lemma StuckLoses(w: World, c: nat, key: Key)
    requires Reached(w) && c in w.peers && !w.peers[c].running && !CanStart(w.peers[c])
    requires key in w.peers[c].accepted && key !in w.peers[c].dropped
    ensures StuckWith(w, c, key)
  {
    hide Reached, InLog, CanStart, W.Open, Q.Open;
    if Logged(w.wal.entries, key) { LoggedInLog(w, key); }
    if InLog(w, key) { InLogLogged(w, key); }
    NotStarted(w.peers[c]);
  }

  lemma NotStarted(p: Peer)
    requires !p.running && !CanStart(p)
    ensures Started(p, p.me) == p
  {
  }

  lemma StuckRuns(w: World, c: nat, key: Key, more: seq<Step>)
    requires Reached(w) && c in w.peers && !w.peers[c].running && !CanStart(w.peers[c])
    requires key in w.peers[c].accepted && key !in w.peers[c].dropped
    ensures StuckWith(Run(w, more), c, key)
  {
    hide Run, W.Open, Q.Open, Safe;
    ReachedInv(w);
    StuckForever(w, c, more);
    ReachedOn(w, more);
    StuckLoses(Run(w, more), c, key);
  }

  lemma ReachedOn(w: World, more: seq<Step>)
    requires Reached(w)
    ensures Reached(Run(w, more))
  {
    hide Run;
    var steps :| Run(INIT, steps) == w;
    RunConcat(INIT, steps, more);
    assert Run(INIT, steps + more) == Run(w, more);
  }

  /** A report that is accepted, one whose write is torn, and the end of the session. */
  function TearSteps(c: nat, id: uint32): seq<Step> {
    [GameWal(c, ReportOf(0), 0, Q.Added, false), GameWal(c, ReportOf(id), 0, Q.DataFails(0), false), Stop(c)]
  }

  function TornPeer(p: Peer, id: uint32): Peer {
    Stopped(Reported(Reported(p, 7, EventOf(p.me, 0), Q.Added, false), 7, EventOf(p.me, id), Q.DataFails(0), false))
  }

  lemma TearPuts(w: World, c: nat, id: uint32)
    requires c in w.peers && w.peers[c].running
    ensures var w' := Run(w, TearSteps(c, id));
            && c in w'.peers && w'.peers[c] == TornPeer(w.peers[c], id) && w'.wal == w.wal
  {
    hide Run, Apply, EventOf, ReportOf, Reported, Stopped;
    var x, y := GameWal(c, ReportOf(0), 0, Q.Added, false), GameWal(c, ReportOf(id), 0, Q.DataFails(0), false);
    OneReportPuts(w, c, 0, Q.Added);
    var w1 := Apply(w, x);
    ReportedRuns(w.peers[c], EventOf(w.peers[c].me, 0), Q.Added);
    OneReportPuts(w1, c, id, Q.DataFails(0));
    RunCons(w, x, [y, Stop(c)]);
    RunTwo(w1, y, Stop(c));
    assert TearSteps(c, id) == [x] + [y, Stop(c)];
    StopPuts(Apply(w1, y), c);
  }

  lemma ReportedRuns(p: Peer, e: Entry, io: Q.AddIo)
    requires Known(e)
    ensures Reported(p, 7, e, io, false).running == p.running && Reported(p, 7, e, io, false).me == p.me
  {
    hide Q.AddState, Q.Untorn, Held;
  }

  lemma StopPuts(w: World, c: nat)
    requires c in w.peers
    ensures Apply(w, Stop(c)) == Put(w, c, Stopped(w.peers[c]))
  {
  }

  lemma TornLayout(p: Peer, id: uint32)
    requires p.running && p.core.queue == Q.EMPTY && id != 0
    ensures var q, key := TornPeer(p, id), KeyOf(EventOf(p.me, 0));
            && !q.running && Q.Load(q.core.queue.file).Err? && key in q.accepted
            && (key !in p.dropped ==> key !in q.dropped)
            && q.outbox == {} == q.resend && q.uplink == p.uplink
  {
    hide KeyOf, W.Payload, EventOf, Carries, Q.Load, Q.AddState, Q.AddOk, Reported;
    var e, x := EventOf(p.me, 0), EventOf(p.me, id);
    KeysDiffer(p.me, id);
    var q1 := Reported(p, 7, e, Q.Added, false);
    FirstReport(p, e);
    SecondReport(q1, x);
    ReportedRuns(p, e, Q.Added);
    TornFile(q1.core.queue, p.me, id);
  }

  lemma FirstReport(p: Peer, e: Entry)
    requires p.core.queue == Q.EMPTY && Known(e)
    ensures var q, key := Reported(p, 7, e, Q.Added, false), KeyOf(e);
            && Q.Faithful(q.core.queue) && q.core.queue.live.Keys == {key}
            && key in q.accepted && (key !in p.dropped ==> key !in q.dropped)
            && q.outbox == p.outbox && q.resend == p.resend && q.uplink == p.uplink
  {
    hide KeyOf, W.Payload, Carries, Q.Load, Q.Left;
    PayloadCarries(e);
    EmptyFaithful();
    WholeIsUntorn(KeyOf(e), W.Payload(e));
    Q.AddReload(Q.EMPTY, KeyOf(e), W.Payload(e), Q.Added);
  }

  lemma SecondReport(p: Peer, x: Entry)
    requires Known(x) && KeyOf(x) !in p.core.queue.live
    ensures var q := Reported(p, 7, x, Q.DataFails(0), false);
            && q.core.queue == Q.AddState(p.core.queue, KeyOf(x), W.Payload(x), Q.DataFails(0))
            && q.accepted == p.accepted && q.dropped == p.dropped
            && q.outbox == p.outbox && q.resend == p.resend && q.uplink == p.uplink
  {
    hide KeyOf, W.Payload, Held, Q.AddState, Q.Untorn;
  }

  lemma TornFile(q: Q.Queue, me: Identity, id: uint32)
    requires Q.Faithful(q) && KeyOf(EventOf(me, id)) !in q.live
    ensures var x := EventOf(me, id);
            Q.Load(Q.AddState(q, KeyOf(x), W.Payload(x), Q.DataFails(0)).file).Err?
  {
    hide KeyOf, W.Payload, Q.Load, Q.AddState;
    TornIsTorn(q, me, id);
    Q.AddReload(q, KeyOf(EventOf(me, id)), W.Payload(EventOf(me, id)), Q.DataFails(0));
  }

  lemma KeysDiffer(me: Identity, id: uint32)
    ensures id != 0 ==> KeyOf(EventOf(me, id)) != KeyOf(EventOf(me, 0))
  {
    KeyInjective(EventOf(me, id), EventOf(me, 0));
  }

  lemma EmptyFaithful()
    ensures Q.Faithful(Q.EMPTY)
  {
    Q.LoadNothing();
  }

  lemma WholeIsUntorn(id: Key, data: seq<byte>)
    requires |data| < UINT32_MODULUS
    ensures Q.Untorn(Q.EMPTY, id, data, Q.Added)
  {
  }

  lemma TornIsTorn(q: Q.Queue, me: Identity, id: uint32)
    requires KeyOf(EventOf(me, id)) !in q.live
    ensures !Q.Untorn(q, KeyOf(EventOf(me, id)), W.Payload(EventOf(me, id)), Q.DataFails(0))
  {
  }

  /** From every reachable state in which the queue is empty: a key is accepted, the write of another is
      torn, and the session ends. The client cannot be started any more, for ever, and its accepted key,
      which nothing else carries, has no way to the server through it. */
  lemma TornAndStuck(w: World, c: nat, id: uint32, more: seq<Step>)
    requires Reached(w) && c in w.peers && w.peers[c].running && w.peers[c].core.queue == Q.EMPTY && id != 0
    requires var key := KeyOf(EventOf(w.peers[c].me, 0)); Lost(w, c, key) && key !in w.peers[c].dropped
    ensures var key, w1 := KeyOf(EventOf(w.peers[c].me, 0)), Run(w, TearSteps(c, id));
            && c in w1.peers && w1.peers[c].outbox == {} == w1.peers[c].resend
            && (forall x <- w1.peers[c].uplink :: !Carries(x.1, key))
            && StuckWith(w1, c, key) && !Safe(w1, c, key)
            && StuckWith(Run(w1, more), c, key)
  {
    hide Run, Reached, KeyOf, EventOf, TearSteps, TornPeer, Safe, Carries, W.Open, Q.Load;
    TearPuts(w, c, id);
    TornLayout(w.peers[c], id);
    ReachedOn(w, TearSteps(c, id));
    var w1 := Run(w, TearSteps(c, id));
    StuckLoses(w1, c, KeyOf(EventOf(w.peers[c].me, 0)));
    StuckRuns(w1, c, KeyOf(EventOf(w.peers[c].me, 0)), more);
  }

  /** A client that dies inside an append to its log cannot be started any more either, whatever is in
      its queue. */
  lemma CrashedAndStuck(w: World, c: nat, written: nat, key: Key, more: seq<Step>)
    requires Reached(w) && c in w.peers && w.peers[c].running && w.peers[c].up
    requires w.peers[c].down != [] && w.peers[c].down[0].op == OP_WAL
    requires 0 < written < |w.peers[c].down[0].data|
    requires key in w.peers[c].accepted && key !in w.peers[c].dropped
    ensures var w1 := Apply(w, ClientCrash(c, written));
            && c in w1.peers && w1.peers[c].walTorn
            && StuckWith(w1, c, key) && StuckWith(Run(w1, more), c, key)
  {
    hide Run, Reached, Apply, Crashed, StuckWith, CanStart;
    ReachedPeer(w, c);
    var p := w.peers[c];
    CrashTears(w.wal.entries, p, written);
    CrashPuts(w, c, written);
    var w1 := Apply(w, ClientCrash(c, written));
    RunOne(w, ClientCrash(c, written));
    ReachedOn(w, [ClientCrash(c, written)]);
    StartsIff(w1, c);
    StuckLoses(w1, c, key);
    StuckRuns(w1, c, key, more);
  }

  lemma CrashPuts(w: World, c: nat, written: nat)
    requires c in w.peers && w.peers[c].running
    ensures Apply(w, ClientCrash(c, written)) == Put(w, c, Crashed(w.peers[c], written))
  {
    hide Crashed;
  }

  lemma CrashTears(log: seq<Entry>, p: Peer, written: nat)
    requires GoodLog(log) && PeerInv(log, p) && p.running && p.up && p.down != [] && p.down[0].op == OP_WAL
    requires 0 < written < |p.down[0].data|
    ensures var q := Crashed(p, written);
            q.walTorn && !q.running && q.accepted == p.accepted && q.dropped == p.dropped
  {
    var k := |p.core.wal.entries|;
    DeliverWal(log, p, W.Done);
    var e := log[k];
    NextIsNew(log, k);
    assert p.core.wal.entries == log[..k];
    assert p.down[0] == WalPacket(k, e);
    assert |W.Record(e)| == |p.down[0].data|;
  }
}
