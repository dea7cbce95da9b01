/** Remote players seen by a client: their short local ids and their expiry. The value-level
    specification of client/internal/game/position_system.go. */
module PositionState {
  import opened Wrappers
  import opened Bytes

  type PlayerID = Bytes16

  const LIFETIME: int := 30
  const ID_COUNT: nat := 0x1_0000

  datatype PlayerData = PlayerData(name: Bytes8, localID: uint16, ttl: int)

  datatype State = State(local: map<PlayerID, PlayerData>, free: seq<uint16>, next: uint16)

  const INIT := State(map[], [], 1)

  // ---- The operations ------------------------------------------------------

  /** A new player takes the id freed last, or the next one never used. */
  function Allocate(s: State): (uint16, State) {
    if |s.free| > 0 then (s.free[|s.free| - 1], s.(free := s.free[..|s.free| - 1]))
    else (s.next, s.(next := (s.next + 1) % ID_COUNT))
  }

  function OnPosition(s: State, id: PlayerID, name: Bytes8): State {
    if id in s.local then s.(local := s.local[id := s.local[id].(ttl := LIFETIME)])
    else
      var (localID, t) := Allocate(s);
      t.(local := t.local[id := PlayerData(name, localID, LIFETIME)])
  }

  function LowerOne(s: State, id: PlayerID): State {
    if id !in s.local then s
    else
      var data := s.local[id].(ttl := s.local[id].ttl - 1);
      if data.ttl <= 0 then s.(local := s.local - {id}, free := s.free + [data.localID])
      else s.(local := s.local[id := data])
  }

  /** One tick, visiting the players in the given order. */
  function LowerAll(s: State, order: seq<PlayerID>): State {
    if order == [] then s else LowerOne(LowerAll(s, order[..|order| - 1]), order[|order| - 1])
  }

  predicate Distinct<T(==)>(xs: seq<T>) {
    forall i, j :: 0 <= i < j < |xs| ==> xs[i] != xs[j]
  }

  /** An order in which a loop over the map may visit its keys. */
  ghost predicate IsOrder(order: seq<PlayerID>, keys: set<PlayerID>) {
    Distinct(order) && forall id :: id in order <==> id in keys
  }

  // ---- Runs ----------------------------------------------------------------

  datatype Event = Position(id: PlayerID, name: Bytes8) | Tick(order: seq<PlayerID>)

  function Run(events: seq<Event>): State {
    if events == [] then INIT
    else
      var s := Run(events[..|events| - 1]);
      match events[|events| - 1]
      case Position(id, name) => OnPosition(s, id, name)
      case Tick(order) => LowerAll(s, order)
  }

  /** Every tick visits each player once, in some order. */
  ghost predicate Possible(events: seq<Event>) {
    events != [] ==>
      && Possible(events[..|events| - 1])
      && (events[|events| - 1].Tick? ==>
            IsOrder(events[|events| - 1].order, Run(events[..|events| - 1]).local.Keys))
  }

  /** Ticks since the last position packet of a player, from the events alone. */
  function Age(events: seq<Event>, id: PlayerID): Option<nat> {
    if events == [] then None
    else
      var before := Age(events[..|events| - 1], id);
      match events[|events| - 1]
      case Position(x, _) => if x == id then Some(0) else before
      case Tick(_) => if before.Some? then Some(before.value + 1) else None
  }

  /** The most players there ever were at once. */
  function Peak(events: seq<Event>): nat {
    if events == [] then 0
    else
      var before, now := Peak(events[..|events| - 1]), |Run(events).local|;
      if now > before then now else before
  }

  // ---- Expiry --------------------------------------------------------------

  /** A tick treats every player it visits alike, whatever the order. */
  lemma {:induction false} LowerAllLocal(s: State, order: seq<PlayerID>)
    requires Distinct(order) && forall id <- order :: id in s.local
    ensures var t := LowerAll(s, order);
            && (forall id <- s.local :: id !in order ==> id in t.local && t.local[id] == s.local[id])
            && (forall id <- t.local :: id in s.local)
            && (forall id <- order :: id in t.local <==> s.local[id].ttl > 1)
            && (forall id <- order :: id in t.local ==> t.local[id] == s.local[id].(ttl := s.local[id].ttl - 1))
  {
    if order != [] {
      var init, last := order[..|order| - 1], order[|order| - 1];
      assert order == init + [last];
      assert last !in init;
      assert forall id :: id in order <==> id in init || id == last;
      LowerAllLocal(s, init);
      LowerOneLocal(LowerAll(s, init), last);
    }
  }

  lemma LowerOneLocal(s: State, id: PlayerID)
    requires id in s.local
    ensures var t := LowerOne(s, id);
            && (forall x <- s.local :: x != id ==> x in t.local && t.local[x] == s.local[x])
            && (forall x <- t.local :: x in s.local)
            && (id in t.local <==> s.local[id].ttl > 1)
            && (id in t.local ==> t.local[id] == s.local[id].(ttl := s.local[id].ttl - 1))
  {
  }

  /** A player is in the table exactly while its last packet is fewer than 30 ticks old, and its
      remaining lifetime says how much fewer. */
  lemma {:induction false} ExpiryExact(events: seq<Event>, id: PlayerID)
    requires Possible(events)
    ensures var s, age := Run(events), Age(events, id);
            && (id in s.local <==> age.Some? && age.value < 30)
            && (id in s.local ==> s.local[id].ttl == 30 - age.value)
  {
    if events != [] {
      var before := events[..|events| - 1];
      ExpiryExact(before, id);
      match events[|events| - 1] {
        case Position(_, _) =>
        case Tick(order) =>
          var s := Run(before);
          assert id in order <==> id in s.local;
          LowerAllLocal(s, order);
      }
    }
  }

  // ---- A player keeps its identity -----------------------------------------

  /** A player that is in the table before and after an event is the same to the game: its local id and
      its name do not change, whatever happens to the others. */
  lemma SameToTheGame(events: seq<Event>, event: Event, id: PlayerID)
    requires Possible(events + [event])
    requires id in Run(events).local && id in Run(events + [event]).local
    ensures var before, after := Run(events).local[id], Run(events + [event]).local[id];
            after.localID == before.localID && after.name == before.name
  {
    var all := events + [event];
    assert all[..|all| - 1] == events;
    match event {
      case Position(_, _) =>
      case Tick(order) => LowerAllLocal(Run(events), order);
    }
  }

  /** A new player has the name of its packet, and the id freed last, or else the next never used. */
  lemma NewToTheGame(events: seq<Event>, id: PlayerID, name: Bytes8)
    requires id !in Run(events).local
    ensures var s, t := Run(events), Run(events + [Position(id, name)]);
            && id in t.local && t.local[id].name == name
            && (s.free != [] ==> t.local[id].localID == s.free[|s.free| - 1] && t.free == s.free[..|s.free| - 1])
            && (s.free == [] ==> t.local[id].localID == s.next && t.free == [])
  {
    var all := events + [Position(id, name)];
    assert all[..|all| - 1] == events;
  }

  /** The local ids a tick frees, in the order in which it visits the players. */
  function Freed(s: State, order: seq<PlayerID>): seq<uint16> {
    if order == [] then []
    else
      var init, last := order[..|order| - 1], order[|order| - 1];
      Freed(s, init) + if last in s.local && s.local[last].ttl <= 1 then [s.local[last].localID] else []
  }

  lemma LowerOneFrees(s: State, id: PlayerID)
    requires id in s.local
    ensures LowerOne(s, id).free == s.free + if s.local[id].ttl <= 1 then [s.local[id].localID] else []
  {
  }

  lemma {:induction false} TickFrees(s: State, order: seq<PlayerID>)
    requires Distinct(order) && forall id <- order :: id in s.local
    ensures LowerAll(s, order).free == s.free + Freed(s, order)
  {
    hide LowerOne;
    if order != [] {
      var init, last := order[..|order| - 1], order[|order| - 1];
      assert order == init + [last] && last !in init;
      assert forall id :: id in order <==> id in init || id == last;
      TickFrees(s, init);
      LowerAllLocal(s, init);
      LowerOneFrees(LowerAll(s, init), last);
    }
  }

  // ---- Local ids -----------------------------------------------------------

  function LiveIds(local: map<PlayerID, PlayerData>): set<uint16> {
    set id <- local :: local[id].localID
  }

  lemma LiveAdd(local: map<PlayerID, PlayerData>, id: PlayerID, data: PlayerData)
    requires id !in local
    ensures LiveIds(local[id := data]) == LiveIds(local) + {data.localID}
  {
    var t := local[id := data];
    forall x <- local ensures local[x].localID in LiveIds(t) {
      assert x in t && t[x] == local[x];
    }
    assert id in t && t[id].localID in LiveIds(t);
  }

  lemma LiveSame(local: map<PlayerID, PlayerData>, id: PlayerID, data: PlayerData)
    requires id in local && data.localID == local[id].localID
    ensures LiveIds(local[id := data]) == LiveIds(local)
  {
    var t := local[id := data];
    forall x <- local ensures local[x].localID in LiveIds(t) {
      assert x in t && t[x].localID == local[x].localID;
    }
  }

  lemma LiveRemove(local: map<PlayerID, PlayerData>, id: PlayerID)
    requires id in local
    ensures LiveIds(local) == LiveIds(local - {id}) + {local[id].localID}
    ensures |local - {id}| == |local| - 1
  {
    LiveAdd(local - {id}, id, local[id]);
    assert (local - {id})[id := local[id]] == local;
  }

  /** No two players share a local id. */
  predicate DistinctIds(s: State) {
    forall x, y :: x in s.local && y in s.local && x != y ==> s.local[x].localID != s.local[y].localID
  }

  /** The first `n` ids handed out: 1, 2, ..., and 0 after 65535. */
  function Issued(n: nat): set<uint16> {
    set k: nat | 1 <= k <= n :: k % ID_COUNT
  }

  /** `n` ids are in circulation, each either with one player or free. */
  predicate IdInv(s: State, n: nat) {
    && n <= ID_COUNT
    && DistinctIds(s) && Distinct(s.free)
    && (forall x <- s.free :: x !in LiveIds(s.local))
    && LiveIds(s.local) + (set x <- s.free) == Issued(n)
    && |s.local| + |s.free| == n
    && s.next == (n + 1) % ID_COUNT
  }

  lemma FreshId(n: nat)
    requires n < ID_COUNT
    ensures Issued(n + 1) == Issued(n) + {(n + 1) % ID_COUNT} && (n + 1) % ID_COUNT !in Issued(n)
  {
    forall k: nat | 1 <= k <= n ensures k % ID_COUNT != (n + 1) % ID_COUNT {
    }
    assert forall x :: x in Issued(n + 1) <==> x in Issued(n) || x == (n + 1) % ID_COUNT;
  }

  lemma LowerOneKeepsIds(s: State, id: PlayerID, n: nat)
    requires IdInv(s, n)
    ensures IdInv(LowerOne(s, id), n)
  {
    if id in s.local && s.local[id].ttl <= 1 {
      var t := LowerOne(s, id);
      LiveRemove(s.local, id);
      assert (set x <- t.free) == (set x <- s.free) + {s.local[id].localID};
    } else if id in s.local {
      var t := LowerOne(s, id);
      LiveSame(s.local, id, t.local[id]);
      assert t.local.Keys == s.local.Keys;
    }
  }

  lemma {:induction false} LowerAllKeepsIds(s: State, order: seq<PlayerID>, n: nat)
    requires IdInv(s, n)
    ensures IdInv(LowerAll(s, order), n)
  {
    if order != [] {
      LowerAllKeepsIds(s, order[..|order| - 1], n);
      LowerOneKeepsIds(LowerAll(s, order[..|order| - 1]), order[|order| - 1], n);
    }
  }

  lemma {:induction false} LowerAllShrinks(s: State, order: seq<PlayerID>)
    ensures LowerAll(s, order).local.Keys <= s.local.Keys && |LowerAll(s, order).local| <= |s.local|
  {
    if order != [] {
      LowerAllShrinks(s, order[..|order| - 1]);
    }
  }

  lemma ReuseKeepsIds(s: State, id: PlayerID, name: Bytes8, n: nat)
    requires IdInv(s, n) && id !in s.local && |s.free| > 0
    ensures IdInv(OnPosition(s, id, name), n) && |OnPosition(s, id, name).local| == |s.local| + 1
  {
    var t := OnPosition(s, id, name);
    var x := s.free[|s.free| - 1];
    assert s.free == t.free + [x];
    assert (set y <- s.free) == (set y <- t.free) + {x};
    LiveAdd(s.local, id, t.local[id]);
    assert x in s.free;
    assert forall y <- t.free :: y in s.free && y != x;
  }

  lemma IssueKeepsIds(s: State, id: PlayerID, name: Bytes8, n: nat)
    requires IdInv(s, n) && id !in s.local && |s.free| == 0 && n < ID_COUNT
    ensures IdInv(OnPosition(s, id, name), n + 1) && |OnPosition(s, id, name).local| == |s.local| + 1 == n + 1
  {
    var t := OnPosition(s, id, name);
    FreshId(n);
    LiveAdd(s.local, id, t.local[id]);
    assert LiveIds(s.local) == Issued(n);
    assert t.next == (n + 2) % ID_COUNT;
  }

  lemma KnownKeepsIds(s: State, id: PlayerID, name: Bytes8, n: nat)
    requires IdInv(s, n) && id in s.local
    ensures IdInv(OnPosition(s, id, name), n) && |OnPosition(s, id, name).local| == |s.local|
  {
    var t := OnPosition(s, id, name);
    LiveSame(s.local, id, t.local[id]);
    assert t.local.Keys == s.local.Keys;
  }

  lemma {:induction false} RunIds(events: seq<Event>)
    requires Peak(events) <= ID_COUNT
    ensures IdInv(Run(events), Peak(events))
    ensures |Run(events).local| <= Peak(events)
  {
    if events == [] {
      assert Issued(0) == {};
    } else {
      var before := events[..|events| - 1];
      RunIds(before);
      var s, n := Run(before), Peak(before);
      match events[|events| - 1] {
        case Position(id, name) =>
          if id in s.local {
            KnownKeepsIds(s, id, name, n);
          } else if |s.free| > 0 {
            ReuseKeepsIds(s, id, name, n);
          } else {
            assert |Run(events).local| == n + 1;
            IssueKeepsIds(s, id, name, n);
          }
        case Tick(order) =>
          LowerAllKeepsIds(s, order, n);
          LowerAllShrinks(s, order);
      }
    }
  }

  // ---- As many ids as players, and no more ---------------------------------

  lemma {:induction false} BoundedCount(xs: set<uint16>, n: nat)
    requires forall x <- xs :: x < n
    ensures |xs| <= n
    decreases n
  {
    if n > 0 {
      BoundedCount(xs - {n - 1}, n - 1);
      if n - 1 in xs {
        assert |xs - {n - 1}| == |xs| - 1;
      } else {
        assert xs - {n - 1} == xs;
      }
    } else {
      assert xs == {};
    }
  }

  lemma {:induction false} DistinctCount(local: map<PlayerID, PlayerData>)
    requires forall x, y :: x in local && y in local && x != y ==> local[x].localID != local[y].localID
    ensures |LiveIds(local)| == |local|
    decreases |local|
  {
    if |local| == 0 {
      assert local == map[];
    } else {
      var id :| id in local;
      var rest := local - {id};
      DistinctCount(rest);
      LiveRemove(local, id);
      assert local[id].localID !in LiveIds(rest);
    }
  }

  lemma TooManyPlayers(s: State)
    requires DistinctIds(s)
    ensures |s.local| <= ID_COUNT
  {
    DistinctCount(s.local);
    BoundedCount(LiveIds(s.local), ID_COUNT);
  }

  lemma {:induction false} PeakReached(events: seq<Event>)
    ensures exists n :: 0 <= n <= |events| && |Run(events[..n]).local| == Peak(events)
  {
    if events == [] {
      assert events[..0] == events;
      assert |Run(events[..0]).local| == Peak(events);
    } else {
      var before := events[..|events| - 1];
      PeakReached(before);
      var n :| 0 <= n <= |before| && |Run(before[..n]).local| == Peak(before);
      assert before[..n] == events[..n];
      assert events[..|events|] == events;
      assert |Run(events[..n]).local| == Peak(events) || |Run(events[..|events|]).local| == Peak(events);
    }
  }

  lemma {:induction false} PeakGrows(events: seq<Event>, n: nat)
    requires n <= |events|
    ensures Peak(events[..n]) <= Peak(events)
  {
    if n == |events| {
      assert events[..n] == events;
    } else {
      PeakGrows(events[..|events| - 1], n);
      assert events[..|events| - 1][..n] == events[..n];
    }
  }

  /** Players never share a local id, at any time of a run, exactly when there are never more than
      65536 of them at once: the 16-bit counter wraps, and then gives out ids again. */
  lemma IdsDistinctIff(events: seq<Event>)
    ensures (forall n :: 0 <= n <= |events| ==> DistinctIds(Run(events[..n]))) <==> Peak(events) <= 65536
  {
    if Peak(events) <= ID_COUNT {
      forall n | 0 <= n <= |events| ensures DistinctIds(Run(events[..n])) {
        PeakGrows(events, n);
        RunIds(events[..n]);
      }
    } else {
      PeakReached(events);
      var n :| 0 <= n <= |events| && |Run(events[..n]).local| == Peak(events);
      if DistinctIds(Run(events[..n])) {
        TooManyPlayers(Run(events[..n]));
      }
    }
  }

  /** Below the wrap, the ids in use and the free ones are together exactly 1 to the peak, each once:
      no id is larger than the number of players there ever were at once. */
  lemma IdsAreTight(events: seq<Event>)
    requires Peak(events) < 65535
    ensures var s, peak := Run(events), Peak(events);
            && s.next == peak + 1
            && DistinctIds(s) && Distinct(s.free)
            && (forall x <- s.free :: x !in LiveIds(s.local))
            && (forall x: uint16 :: x in LiveIds(s.local) || x in s.free <==> 1 <= x <= peak)
  {
    RunIds(events);
    var s, peak := Run(events), Peak(events);
    forall x: uint16 ensures x in LiveIds(s.local) || x in s.free <==> 1 <= x <= peak {
      assert x in s.free <==> x in (set y <- s.free);
      assert x in Issued(peak) <==> 1 <= x <= peak by {
        if 1 <= x <= peak {
          assert x % ID_COUNT == x;
        }
      }
    }
  }
}
