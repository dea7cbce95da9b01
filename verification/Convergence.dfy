/** Clients can always come to agree, whatever the state of the others: from every reachable state in
    which the log has room, any clients whose files can be read can bring each waiting entry that is
    under its own key into the log and catch up with it. */
module Convergence {
  import opened WalEntry
  import opened Bytes
  import opened Protocol
  import opened Links
  import opened Delivery
  import opened Theorems
  import opened Progress
  import Q = QueueState
  import W = WalState

  /** What a client has to send, now or once it is started. */
  function Waiting(p: Peer): Q.Live {
    if p.running then p.core.queue.live
    else
      match Q.Load(p.core.queue.file)
      case Ok(m) => m
      case Err(_) => map[]
  }

  /** What of it can be sent: the entries under their own keys. */
  function Sendable(p: Peer): Q.Live {
    map k | k in Waiting(p) && Carries(Waiting(p)[k], k) :: Waiting(p)[k]
  }

  predicate CanRun(p: Peer) {
    p.running || CanStart(p)
  }

  /** A client that runs and has sent all it can. */
  predicate Spent(p: Peer) {
    p.running && Sendable(p) == map[]
  }

  /** What a client keeps that has sent all it could: the entries it had that cannot be sent. */
  lemma LeftOver(p: Peer, q: Peer)
    requires Within(Waiting(q), Waiting(p)) && Spent(q)
    ensures forall k <- q.core.queue.live :: k in Waiting(p) && !Carries(Waiting(p)[k], k)
    ensures (forall k <- Waiting(p) :: Carries(Waiting(p)[k], k)) ==> Emptied(q)
  {
    hide Carries;
    forall k <- q.core.queue.live ensures k in Waiting(p) && !Carries(Waiting(p)[k], k) {
      assert k in Waiting(q);
      assert Carries(Waiting(q)[k], k) <==> k in Sendable(q);
    }
    if forall k <- Waiting(p) :: Carries(Waiting(p)[k], k) {
      assert forall k :: k !in q.core.queue.live;
    }
  }

  /** Everything can be sent that waits with a client whose writes were whole and that holds nothing
      salvaged. */
  lemma IntactSendsAll(w: World, c: nat)
    requires Reached(w) && c in w.peers && (w.peers[c].running || w.peers[c].clean)
    requires forall k <- Waiting(w.peers[c]) :: Waiting(w.peers[c])[k] !in w.peers[c].salvaged
    ensures forall k <- Waiting(w.peers[c]) :: Carries(Waiting(w.peers[c])[k], k)
  {
    hide Reached, W.Open, Q.Load;
    ReachedPeer(w, c);
    var p := w.peers[c];
    forall k <- Waiting(p) ensures Carries(Waiting(p)[k], k) {
      assert Genuine(w.reported, p.salvaged, k, Waiting(p)[k]);
    }
  }

  /** The keys some of these clients still have to bring into the log. */
  function Missing(w: World, who: set<nat>): set<Key> {
    set c, k | c in who && c in w.peers && k in Sendable(w.peers[c]) && !Logged(w.wal.entries, k) :: k
  }

  predicate RoomFor(w: World, who: set<nat>) {
    |w.wal.entries| + |Missing(w, who)| < UINT32_MODULUS - 1
  }

  /** Everybody else is exactly as before. */
  predicate Elsewhere(w: World, w': World, who: set<nat>) {
    w'.peers.Keys == w.peers.Keys && forall x <- w.peers.Keys - who :: w'.peers[x] == w.peers[x]
  }

  // ---- One client empties its queue ----------------------------------------

  /** Nothing is missing that was not, and what the log gained is no longer missing. */
  predicate NearerAll(w: World, w': World, who: set<nat>) {
    && w.wal.entries <= w'.wal.entries
    && Missing(w', who) <= Missing(w, who)
    && |w'.wal.entries| + |Missing(w', who)| <= |w.wal.entries| + |Missing(w, who)|
  }

  lemma LoggedStays(log: seq<Entry>, log': seq<Entry>, key: Key)
    requires log <= log' && Logged(log, key)
    ensures Logged(log', key)
  {
    assert W.KeySet(log) <= W.KeySet(log');
  }

  lemma MissingShrinks(w: World, w': World, who: set<nat>, c: nat)
    requires c in w.peers && OthersSame(w, w', c) && w.wal.entries <= w'.wal.entries
    requires Sendable(w'.peers[c]).Keys <= Sendable(w.peers[c]).Keys
    ensures Missing(w', who) <= Missing(w, who)
  {
    hide Sendable, Logged;
    forall k <- Missing(w', who) ensures k in Missing(w, who) {
      var x :| x in who && x in w'.peers && k in Sendable(w'.peers[x]) && !Logged(w'.wal.entries, k);
      if Logged(w.wal.entries, k) { LoggedStays(w.wal.entries, w'.wal.entries, k); }
      assert x in w.peers && k in Sendable(w.peers[x]);
    }
  }

  /** A step towards an empty queue: one entry gets through. */
  lemma ThroughNearer(w: World, w': World, who: set<nat>, c: nat, key: Key, x: Entry)
    requires c in who && c in w.peers && OthersSame(w, w', c) && key in Sendable(w.peers[c])
    requires Sendable(w'.peers[c]).Keys <= Sendable(w.peers[c]).Keys
    requires w'.wal.entries == LogWith(w.wal.entries, key, x) && Logged(w'.wal.entries, key)
    ensures NearerAll(w, w', who)
  {
    hide Sendable, Logged;
    MissingShrinks(w, w', who, c);
    if w'.wal.entries != w.wal.entries {
      assert key in Missing(w, who) && key !in Missing(w', who);
      assert Missing(w', who) <= Missing(w, who) - {key};
      FewerKeys(Missing(w', who), Missing(w, who) - {key});
    } else {
      FewerKeys(Missing(w', who), Missing(w, who));
    }
  }

  lemma {:induction false} FewerKeys(a: set<Key>, b: set<Key>)
    requires a <= b
    ensures |a| <= |b|
  {
    assert b == a + (b - a);
  }

  /** One client has sent all it could, and the others are as they were. */
  ghost predicate HasSent(w: World, w': World, who: set<nat>, c: nat)
    requires c in w.peers
  {
    && SystemInv(w') && !w'.torn && OthersSame(w, w', c) && NearerAll(w, w', who)
    && Spent(w'.peers[c]) && Within(Waiting(w'.peers[c]), Waiting(w.peers[c]))
    && forall k <- Sendable(w.peers[c]) :: Logged(w'.wal.entries, k)
  }

  lemma HasSentMore(w: World, w1: World, w2: World, who: set<nat>, c: nat)
    requires c in w.peers && OthersSame(w, w1, c) && NearerAll(w, w1, who) && HasSent(w1, w2, who, c)
    requires Within(Waiting(w1.peers[c]), Waiting(w.peers[c]))
    requires forall k <- Sendable(w.peers[c]) :: k in Sendable(w1.peers[c]) || Logged(w1.wal.entries, k)
    ensures HasSent(w, w2, who, c)
  {
    hide SystemInv, Waiting, Sendable, Spent, Logged, Missing;
    forall k <- Sendable(w.peers[c]) ensures Logged(w2.wal.entries, k) {
      if Logged(w1.wal.entries, k) { LoggedStays(w1.wal.entries, w2.wal.entries, k); }
    }
  }

  lemma {:induction false} SendQueue(w: World, who: set<nat>, c: nat) returns (more: seq<Step>)
    requires SystemInv(w) && c in who && c in w.peers && w.peers[c].running
    requires !w.torn && RoomFor(w, who)
    ensures OnlyOf(more, c) && HasSent(w, Run(w, more), who, c)
    decreases |Sendable(w.peers[c])|
  {
    hide SystemInv, Inv, Run, OnlyOf, Carries, Logged, Parse, OthersSame, Missing, Sendable, Waiting;
    var p := w.peers[c];
    if Sendable(p) == map[] {
      more := [];
      NothingSent(w, who, c);
    } else {
      var key :| key in Sendable(p);
      SystemIsInv(w);
      SendableCarries(p, key);
      var through := GetThrough(w, c, key);
      var w1 := Run(w, through);
      RunKeepsSystem(w, through);
      RunOthers(w, through, c);
      OneSent(p, w1.peers[c], key);
      ThroughNearer(w, w1, who, c, key, Parse(p.core.queue.live[key]).value);
      var rest := SendQueue(w1, who, c);
      RunConcat(w, through, rest);
      OnlyOfConcat(through, rest, c);
      HasSentMore(w, w1, Run(w1, rest), who, c);
      more := through + rest;
    }
  }

  lemma SendableCarries(p: Peer, key: Key)
    requires p.running && key in Sendable(p)
    ensures key in p.core.queue.live && Carries(p.core.queue.live[key], key) && Parse(p.core.queue.live[key]).Ok?
  {
  }

  /** What is left when one entry is gone. */
  lemma OneSent(p: Peer, q: Peer, key: Key)
    requires p.running && q.running && q.core.queue.live == p.core.queue.live - {key} && key in Sendable(p)
    ensures Within(Waiting(q), Waiting(p)) && Sendable(q) == Sendable(p) - {key}
    ensures |Sendable(q)| < |Sendable(p)|
  {
    hide Carries;
    OneFewer(Sendable(p), key);
  }

  lemma OneFewer(m: Q.Live, key: Key)
    requires key in m
    ensures |m - {key}| < |m|
  {
    assert m.Keys == (m - {key}).Keys + {key};
    assert |m.Keys| == |m| && |(m - {key}).Keys| == |m - {key}|;
  }

  lemma NothingSent(w: World, who: set<nat>, c: nat)
    requires SystemInv(w) && c in w.peers && !w.torn && Spent(w.peers[c])
    ensures OnlyOf([], c) && HasSent(w, Run(w, []), who, c)
  {
    hide SystemInv, Missing, Sendable;
    RunNothing(w);
  }

  /** Starting a client changes nothing about what waits. */
  lemma StartWaits(w: World, c: nat)
    requires SystemInv(w) && c in w.peers && !w.peers[c].running && CanStart(w.peers[c])
    ensures var w' := Apply(w, Start(c, w.peers[c].me));
            && SystemInv(w') && w'.wal == w.wal && w'.torn == w.torn && OthersSame(w, w', c)
            && w'.peers[c].running && Waiting(w'.peers[c]) == Waiting(w.peers[c])
            && Sendable(w'.peers[c]) == Sendable(w.peers[c])
  {
    hide SystemInv, Carries, Started, Waiting, CanStart;
    SystemStepKeeps(w, Start(c, w.peers[c].me));
    StepOthers(w, Start(c, w.peers[c].me));
    StartedWaits(w.peers[c]);
    StartPuts(w, c, w.peers[c].me);
  }

  lemma StartedWaits(p: Peer)
    requires !p.running && CanStart(p)
    ensures var q := Started(p, p.me); q.running && Waiting(q) == Waiting(p)
  {
    hide W.Open, Q.Load;
  }

  lemma SendAll(w: World, who: set<nat>, c: nat) returns (more: seq<Step>)
    requires SystemInv(w) && c in who && c in w.peers && CanRun(w.peers[c]) && !w.torn && RoomFor(w, who)
    ensures OnlyOf(more, c) && HasSent(w, Run(w, more), who, c)
  {
    hide SystemInv, Run, Apply, Logged, Waiting, Sendable, CanStart;
    if w.peers[c].running {
      more := SendQueue(w, who, c);
    } else {
      var w1 := Apply(w, Start(c, w.peers[c].me));
      StartWaits(w, c);
      MissingShrinks(w, w1, who, c);
      FewerKeys(Missing(w1, who), Missing(w, who));
      var rest := SendQueue(w1, who, c);
      HasSentMore(w, w1, Run(w1, rest), who, c);
      RunCons(w, Start(c, w.peers[c].me), rest);
      more := [Start(c, w.peers[c].me)] + rest;
    }
  }

  // ---- Several clients do --------------------------------------------------

  /** These clients have sent all they could, and what some of them could send is in the log. */
  ghost predicate AllSent(w: World, w': World, who: set<nat>, todo: set<nat>) {
    && SystemInv(w') && !w'.torn && Elsewhere(w, w', who) && w.wal.entries <= w'.wal.entries
    && (forall c <- who :: c in w.peers && c in w'.peers && Spent(w'.peers[c])
                           && Within(Waiting(w'.peers[c]), Waiting(w.peers[c])))
    && forall c <- todo :: c in w.peers && forall k <- Sendable(w.peers[c]) :: Logged(w'.wal.entries, k)
  }

  lemma {:induction false} SendQueues(w: World, who: set<nat>, todo: set<nat>) returns (more: seq<Step>)
    requires SystemInv(w) && !w.torn && RoomFor(w, who) && todo <= who <= w.peers.Keys
    requires forall c <- todo :: CanRun(w.peers[c])
    requires forall c <- who - todo :: Spent(w.peers[c])
    ensures AllSent(w, Run(w, more), who, todo)
    decreases todo
  {
    hide SystemInv, Run, Apply, CanRun, Spent, Waiting, Sendable, Logged, Missing, OnlyOf;
    if todo == {} {
      more := [];
      RunNothing(w);
    } else {
      var c :| c in todo;
      var first := SendAll(w, who, c);
      var w1 := Run(w, first);
      var rest := SendQueues(w1, who, todo - {c});
      RunConcat(w, first, rest);
      more := first + rest;
      var w2 := Run(w1, rest);
      forall k <- Sendable(w.peers[c]) ensures Logged(w2.wal.entries, k) {
        LoggedStays(w1.wal.entries, w2.wal.entries, k);
      }
    }
  }

  // ---- Several clients catch up --------------------------------------------

  /** A connected client that holds the whole log and has sent all it could. */
  predicate Settled(w: World, c: nat)
    requires c in w.peers
  {
    Spent(w.peers[c]) && CaughtUp(w, c) && w.peers[c].core.wal.entries == w.wal.entries
  }

  ghost predicate AllSettled(w: World, w': World, who: set<nat>) {
    && SystemInv(w') && !w'.torn && Elsewhere(w, w', who) && w'.wal.entries == w.wal.entries
    && forall c <- who :: c in w.peers && c in w'.peers && Settled(w', c)
                          && Within(Waiting(w'.peers[c]), Waiting(w.peers[c]))
  }

  lemma SettleOne(w: World, c: nat) returns (more: seq<Step>)
    requires SystemInv(w) && !w.torn && c in w.peers && Spent(w.peers[c])
    ensures var w' := Run(w, more);
            && SystemInv(w') && !w'.torn && OthersSame(w, w', c) && w'.wal.entries == w.wal.entries
            && Settled(w', c) && Within(Waiting(w'.peers[c]), Waiting(w.peers[c]))
  {
    hide SystemInv, Inv, Run, OnlyOf, CaughtUp;
    SystemIsInv(w);
    more := CatchUp(w, c);
    RunKeepsSystem(w, more);
    RunOthers(w, more, c);
    SpentStays(w.peers[c], Run(w, more).peers[c]);
  }

  lemma SpentStays(p: Peer, q: Peer)
    requires Spent(p) && q.running && Within(q.core.queue.live, p.core.queue.live)
    ensures Spent(q) && Within(Waiting(q), Waiting(p))
  {
    hide Carries;
    forall k ensures k !in Sendable(q) {
      assert k in Sendable(q) ==> k in Sendable(p);
    }
  }

  lemma SettledStays(w: World, w': World, c: nat)
    requires c in w.peers && c in w'.peers && w'.peers[c] == w.peers[c] && w'.wal.entries == w.wal.entries
    requires Settled(w, c)
    ensures Settled(w', c)
  {
    hide Spent;
  }

  lemma {:induction false} SettleAll(w: World, who: set<nat>, todo: set<nat>) returns (more: seq<Step>)
    requires SystemInv(w) && !w.torn && todo <= who <= w.peers.Keys
    requires forall c <- who :: Spent(w.peers[c])
    requires forall c <- who - todo :: Settled(w, c)
    ensures AllSettled(w, Run(w, more), who)
    decreases todo
  {
    hide SystemInv, Run, CaughtUp, Spent, Settled, Waiting;
    if todo == {} {
      more := [];
      RunNothing(w);
    } else {
      var c :| c in todo;
      var first := SettleOne(w, c);
      var w1 := Run(w, first);
      assert Spent(w1.peers[c]) by { SettledSpent(w1, c); }
      forall x <- who - (todo - {c}) ensures Settled(w1, x) {
        if x != c { SettledStays(w, w1, x); }
      }
      var rest := SettleAll(w1, who, todo - {c});
      RunConcat(w, first, rest);
      more := first + rest;
    }
  }

  lemma SettledSpent(w: World, c: nat)
    requires c in w.peers && Settled(w, c)
    ensures Spent(w.peers[c])
  {
    hide Spent;
  }

  // ---- Agreement is always possible ----------------------------------------

  /** Each of these clients is connected and holds the server's log. In that log is each key they could
      send, and each key they answered for; left in their queues is nothing but entries that were there
      before and cannot be sent. The other clients are as they were. */
  predicate Agreed(w: World, w': World, who: set<nat>)
    requires who <= w.peers.Keys
  {
    && Elsewhere(w, w', who) && w.wal.entries <= w'.wal.entries
    && (forall c <- who :: c in w'.peers && Settled(w', c) && Within(Waiting(w'.peers[c]), Waiting(w.peers[c])))
    && (forall c <- who, k <- Sendable(w.peers[c]) :: Occurrences(w'.wal.entries, k) == 1)
    && (forall c <- who :: w.peers[c].running || w.peers[c].clean ==>
          forall k <- Answered(w.peers[c]) :: Occurrences(w'.wal.entries, k) == 1)
  }

  lemma CanAgree(w: World, who: set<nat>)
    requires Reached(w) && !w.torn && who <= w.peers.Keys && RoomFor(w, who)
    requires forall c <- who :: CanRun(w.peers[c])
    ensures exists more :: Agreed(w, Run(w, more), who)
  {
    hide Reached, SystemInv, Run, RoomFor, CanRun, Spent, CaughtUp, Waiting, Sendable, Logged;
    ReachedInv(w);
    var sends := SendQueues(w, who, who);
    var w1 := Run(w, sends);
    var pulls := SettleAll(w1, who, who);
    RunConcat(w, sends, pulls);
    var w2 := Run(w, sends + pulls);
    forall c <- who, k <- Sendable(w.peers[c]) ensures Occurrences(w2.wal.entries, k) == 1 {
      LoggedOnce(w2, k);
    }
    forall c <- who | w.peers[c].running || w.peers[c].clean
      ensures forall k <- Answered(w.peers[c]) :: Occurrences(w2.wal.entries, k) == 1
    {
      forall k <- Answered(w.peers[c]) ensures Occurrences(w2.wal.entries, k) == 1 {
        AnsweredWaits(w, c, k);
        if Logged(w.wal.entries, k) { LoggedStays(w.wal.entries, w2.wal.entries, k); }
        LoggedOnce(w2, k);
      }
    }
    assert Agreed(w, w2, who);
  }

  /** When all that waits with them can be sent, their queues are empty then. */
  lemma AgreedEmptied(w: World, w': World, who: set<nat>, c: nat)
    requires who <= w.peers.Keys && c in who && Agreed(w, w', who)
    ensures forall k <- w'.peers[c].core.queue.live :: k in Waiting(w.peers[c]) && !Carries(Waiting(w.peers[c])[k], k)
    ensures (forall k <- Waiting(w.peers[c]) :: Carries(Waiting(w.peers[c])[k], k)) ==> Emptied(w'.peers[c])
  {
    hide Carries, CaughtUp;
    LeftOver(w.peers[c], w'.peers[c]);
  }

  lemma LoggedOnce(w: World, key: Key)
    requires SystemInv(w) && Logged(w.wal.entries, key)
    ensures Occurrences(w.wal.entries, key) == 1
  {
    OccursOnce(w.wal.entries, key);
  }

  lemma AnsweredWaits(w: World, c: nat, key: Key)
    requires Reached(w) && c in w.peers && key in Answered(w.peers[c])
    requires w.peers[c].running || w.peers[c].clean
    ensures Logged(w.wal.entries, key) || key in Sendable(w.peers[c])
  {
    hide Reached, Q.Load, Carries;
    ReachedPeer(w, c);
    assert key in w.peers[c].accepted - w.peers[c].dropped;
  }
}
