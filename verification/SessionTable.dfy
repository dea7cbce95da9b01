/** The server's table of open sessions, reference counted by the connection handlers
    (server/internal/app/app.go). */
module SessionTable {
  import opened Wrappers
  import opened Bytes

  type SessionID = Bytes16
  type Secret = Bytes8

  /** A session object that was opened: its identity, and how often it has been closed. */
  datatype Session = Session(id: SessionID, secret: Secret, closes: nat)

  /** A table entry: which session object, and its count. */
  datatype Slot = Slot(session: nat, count: int)

  datatype Table = Table(slots: map<SessionID, Slot>, history: seq<Session>)

  datatype AcquireError = InvalidSecret | OpenFailed

  predicate Valid(t: Table) {
    forall id <- t.slots :: t.slots[id].session < |t.history|
  }

  // ---- The operations ------------------------------------------------------

  function AcquireResult(t: Table, id: SessionID, secret: Secret, canOpen: bool): Result<nat, AcquireError>
    requires Valid(t)
  {
    if id in t.slots then
      if t.history[t.slots[id].session].secret != secret then Err(InvalidSecret)
      else Ok(t.slots[id].session)
    else if canOpen then Ok(|t.history|)
    else Err(OpenFailed)
  }

  function Acquire(t: Table, id: SessionID, secret: Secret, canOpen: bool): Table
    requires Valid(t)
  {
    var r := AcquireResult(t, id, secret, canOpen);
    if r.Err? then t
    else if id in t.slots then t.(slots := t.slots[id := t.slots[id].(count := t.slots[id].count + 1)])
    else Table(t.slots[id := Slot(|t.history|, 1)], t.history + [Session(id, secret, 0)])
  }

  function Release(t: Table, id: SessionID): Table
    requires Valid(t)
  {
    if id !in t.slots then t
    else
      var slot := t.slots[id].(count := t.slots[id].count - 1);
      if slot.count <= 0 then
        var s := t.history[slot.session];
        Table(t.slots - {id}, t.history[slot.session := s.(closes := s.closes + 1)])
      else t.(slots := t.slots[id := slot])
  }

  // ---- The object ----------------------------------------------------------

  class App {
    var sessions: map<SessionID, Slot>
    var history: seq<Session>

    function View(): Table
      reads this
    {
      Table(sessions, history)
    }

    constructor ()
      ensures View() == Table(map[], [])
    {
      sessions, history := map[], [];
    }

    method AcquireSession(id: SessionID, secret: Secret, canOpen: bool) returns (r: Result<nat, AcquireError>)
      requires Valid(View())
      modifies this
      ensures View() == Acquire(old(View()), id, secret, canOpen) && Valid(View())
      ensures r == AcquireResult(old(View()), id, secret, canOpen)
    {
      if id in sessions {
        if history[sessions[id].session].secret != secret {
          return Err(InvalidSecret);
        }
        sessions := sessions[id := sessions[id].(count := sessions[id].count + 1)];
        return Ok(sessions[id].session);
      }
      if !canOpen {
        return Err(OpenFailed);
      }
      var session := |history|;
      history := history + [Session(id, secret, 0)];
      sessions := sessions[id := Slot(session, 1)];
      return Ok(session);
    }

    method ReleaseSession(id: SessionID)
      requires Valid(View())
      modifies this
      ensures View() == Release(old(View()), id) && Valid(View())
    {
      if id in sessions {
        var slot := sessions[id].(count := sessions[id].count - 1);
        sessions := sessions[id := slot];
        if slot.count <= 0 {
          sessions := sessions - {id};
          var s := history[slot.session];
          history := history[slot.session := s.(closes := s.closes + 1)];
          assert sessions == old(sessions) - {id};
        }
      }
    }
  }

  // ---- Every interleaving of handlers --------------------------------------

  /** What a connection handler holds between its acquire and its deferred release. */
  datatype Hold = Hold(id: SessionID, secret: Secret, session: nat)

  datatype World = World(table: Table, holds: map<nat, Hold>)

  datatype Step = Connect(h: nat, id: SessionID, secret: Secret, canOpen: bool) | Leave(h: nat)

  const INIT := World(Table(map[], []), map[])

  function Apply(w: World, step: Step): World
    requires Valid(w.table)
  {
    match step
    case Connect(h, id, secret, canOpen) =>
      if h in w.holds then w
      else
        (match AcquireResult(w.table, id, secret, canOpen)
         case Err(_) => w
         case Ok(s) => World(Acquire(w.table, id, secret, canOpen), w.holds[h := Hold(id, secret, s)]))
    case Leave(h) =>
      if h !in w.holds then w
      else World(Release(w.table, w.holds[h].id), w.holds - {h})
  }

  /** The handlers that hold the session of this id. */
  function Holders(holds: map<nat, Hold>, id: SessionID): set<nat> {
    set h | h in holds && holds[h].id == id
  }

  predicate SlotInv(w: World, id: SessionID)
    requires Valid(w.table) && id in w.table.slots
  {
    var slot := w.table.slots[id];
    && slot.count == |Holders(w.holds, id)| && 0 < slot.count
    && w.table.history[slot.session].id == id
    && w.table.history[slot.session].closes == 0
  }

  predicate HoldInv(w: World, h: nat)
    requires Valid(w.table) && h in w.holds
  {
    var hold := w.holds[h];
    && hold.id in w.table.slots
    && hold.session == w.table.slots[hold.id].session
    && hold.secret == w.table.history[hold.session].secret
  }

  /** Session `x` is the one in the table, or was closed, once. */
  predicate SessionInv(t: Table, x: nat)
    requires Valid(t) && x < |t.history|
  {
    var s := t.history[x];
    if s.id in t.slots && t.slots[s.id].session == x then s.closes == 0 else s.closes == 1
  }

  predicate Inv(w: World) {
    && Valid(w.table)
    && (forall id <- w.table.slots :: SlotInv(w, id))
    && (forall h <- w.holds :: HoldInv(w, h))
    && (forall x :: 0 <= x < |w.table.history| ==> SessionInv(w.table, x))
  }

  lemma HoldersAdd(holds: map<nat, Hold>, h: nat, hold: Hold)
    requires h !in holds
    ensures Holders(holds[h := hold], hold.id) == Holders(holds, hold.id) + {h}
    ensures |Holders(holds[h := hold], hold.id)| == |Holders(holds, hold.id)| + 1
    ensures forall id: SessionID :: id != hold.id ==> Holders(holds[h := hold], id) == Holders(holds, id)
  {
    assert Holders(holds[h := hold], hold.id) == Holders(holds, hold.id) + {h};
  }

  lemma HoldersRemove(holds: map<nat, Hold>, h: nat)
    requires h in holds
    ensures |Holders(holds - {h}, holds[h].id)| == |Holders(holds, holds[h].id)| - 1
    ensures forall id: SessionID :: id != holds[h].id ==> Holders(holds - {h}, id) == Holders(holds, id)
  {
    assert Holders(holds - {h}, holds[h].id) == Holders(holds, holds[h].id) - {h};
  }

  lemma JoinKeeps(w: World, h: nat, hold: Hold)
    requires Inv(w) && h !in w.holds && hold.id in w.table.slots
    requires hold.session == w.table.slots[hold.id].session
    requires hold.secret == w.table.history[hold.session].secret
    ensures var slot := w.table.slots[hold.id];
            Inv(World(w.table.(slots := w.table.slots[hold.id := slot.(count := slot.count + 1)]), w.holds[h := hold]))
  {
    var slot := w.table.slots[hold.id];
    var w' := World(w.table.(slots := w.table.slots[hold.id := slot.(count := slot.count + 1)]), w.holds[h := hold]);
    HoldersAdd(w.holds, h, hold);
    forall x <- w'.table.slots ensures SlotInv(w', x) {
      assert SlotInv(w, x);
    }
    forall x <- w'.holds ensures HoldInv(w', x) {
      assert x != h ==> HoldInv(w, x);
    }
    forall x | 0 <= x < |w'.table.history| ensures SessionInv(w'.table, x) {
      assert SessionInv(w.table, x);
    }
  }

  lemma Unheld(w: World, id: SessionID)
    requires Inv(w) && id !in w.table.slots
    ensures Holders(w.holds, id) == {}
  {
    forall h <- w.holds ensures w.holds[h].id != id {
      assert HoldInv(w, h);
    }
  }

  lemma OpenKeeps(w: World, h: nat, hold: Hold)
    requires Inv(w) && h !in w.holds && hold.id !in w.table.slots && hold.session == |w.table.history|
    ensures Inv(World(Table(w.table.slots[hold.id := Slot(hold.session, 1)],
                            w.table.history + [Session(hold.id, hold.secret, 0)]), w.holds[h := hold]))
  {
    var w' := World(Table(w.table.slots[hold.id := Slot(hold.session, 1)],
                          w.table.history + [Session(hold.id, hold.secret, 0)]), w.holds[h := hold]);
    HoldersAdd(w.holds, h, hold);
    Unheld(w, hold.id);
    forall x <- w'.table.slots ensures SlotInv(w', x) {
      assert x != hold.id ==> SlotInv(w, x);
    }
    forall x <- w'.holds ensures HoldInv(w', x) {
      assert x != h ==> HoldInv(w, x);
    }
    forall x | 0 <= x < |w'.table.history| ensures SessionInv(w'.table, x) {
      assert x < |w.table.history| ==> SessionInv(w.table, x);
    }
  }

  lemma ConnectKeeps(w: World, h: nat, id: SessionID, secret: Secret, canOpen: bool)
    requires Inv(w)
    ensures Inv(Apply(w, Connect(h, id, secret, canOpen)))
  {
    hide Inv;
    InvValid(w);
    var r := AcquireResult(w.table, id, secret, canOpen);
    if h !in w.holds && r.Ok? {
      var hold := Hold(id, secret, r.value);
      if id in w.table.slots {
        JoinKeeps(w, h, hold);
      } else {
        OpenKeeps(w, h, hold);
      }
    }
  }

  lemma InvValid(w: World)
    requires Inv(w)
    ensures Valid(w.table)
  {
  }

  /** A handler leaves while others hold the same session. */
  lemma DepartKeeps(w: World, h: nat)
    requires Inv(w) && h in w.holds
    requires Valid(w.table) && w.holds[h].id in w.table.slots && w.table.slots[w.holds[h].id].count > 1
    ensures var id := w.holds[h].id;
            var slot := w.table.slots[id];
            Inv(World(w.table.(slots := w.table.slots[id := slot.(count := slot.count - 1)]), w.holds - {h}))
  {
    var id := w.holds[h].id;
    var slot := w.table.slots[id];
    var w' := World(w.table.(slots := w.table.slots[id := slot.(count := slot.count - 1)]), w.holds - {h});
    HoldersRemove(w.holds, h);
    forall x <- w'.table.slots ensures SlotInv(w', x) {
      assert SlotInv(w, x);
    }
    forall x <- w'.holds ensures HoldInv(w', x) {
      assert HoldInv(w, x);
    }
    forall x | 0 <= x < |w'.table.history| ensures SessionInv(w'.table, x) {
      assert SessionInv(w.table, x);
    }
  }

  /** The last holder leaves and the session is closed. */
  lemma CloseKeeps(w: World, h: nat)
    requires Inv(w) && h in w.holds
    requires Valid(w.table) && w.holds[h].id in w.table.slots && w.table.slots[w.holds[h].id].count == 1
    ensures var id := w.holds[h].id;
            var x := w.table.slots[id].session;
            var s := w.table.history[x];
            Inv(World(Table(w.table.slots - {id}, w.table.history[x := s.(closes := s.closes + 1)]), w.holds - {h}))
  {
    var id := w.holds[h].id;
    var n := w.table.slots[id].session;
    var s := w.table.history[n];
    var w' := World(Table(w.table.slots - {id}, w.table.history[n := s.(closes := s.closes + 1)]), w.holds - {h});
    HoldersRemove(w.holds, h);
    assert SlotInv(w, id);
    forall x <- w'.table.slots ensures SlotInv(w', x) {
      assert SlotInv(w, x);
    }
    forall x <- w'.holds ensures HoldInv(w', x) {
      assert HoldInv(w, x);
      if w.holds[x].id == id {
        TwoHolders(Holders(w.holds, id), x, h);
      } else {
        assert SlotInv(w, w.holds[x].id);
      }
    }
    forall x | 0 <= x < |w'.table.history| ensures SessionInv(w'.table, x) {
      assert SessionInv(w.table, x);
    }
  }

  lemma LeaveKeeps(w: World, h: nat)
    requires Inv(w)
    ensures Inv(Apply(w, Leave(h)))
  {
    hide Inv;
    InvValid(w);
    if h in w.holds {
      HeldCounted(w, h);
      if w.table.slots[w.holds[h].id].count > 1 {
        DepartKeeps(w, h);
      } else {
        CloseKeeps(w, h);
      }
    }
  }

  lemma HeldCounted(w: World, h: nat)
    requires Inv(w) && h in w.holds
    ensures w.holds[h].id in w.table.slots && w.table.slots[w.holds[h].id].count > 0
  {
    assert HoldInv(w, h) && SlotInv(w, w.holds[h].id);
  }

  lemma TwoHolders(hs: set<nat>, x: nat, y: nat)
    requires x != y && x in hs && y in hs
    ensures |hs| >= 2
  {
    assert |hs - {x}| == |hs| - 1;
    assert y in hs - {x};
  }

  lemma {:induction false} RunKeeps(w: World, steps: seq<Step>) returns (end: World)
    requires Inv(w)
    ensures Inv(end) && Run(w, steps) == Some(end)
    decreases |steps|
  {
    if steps == [] {
      end := w;
    } else {
      match steps[0] {
        case Connect(h, id, secret, canOpen) => ConnectKeeps(w, h, id, secret, canOpen);
        case Leave(h) => LeaveKeeps(w, h);
      }
      end := RunKeeps(Apply(w, steps[0]), steps[1..]);
    }
  }

  /** A run; None if the table were ever to name a session that was never opened. */
  function Run(w: World, steps: seq<Step>): Option<World>
    decreases |steps|
  {
    if !Valid(w.table) then None
    else if steps == [] then Some(w)
    else Run(Apply(w, steps[0]), steps[1..])
  }

  /** However handlers interleave: the table holds exactly the sessions some handler holds, with the
      number of its holders as count; a session was closed once if no handler holds it and never if
      one does; holders of one id share one session and presented its secret; so there is at most
      one open session per id. */
  lemma CountsAreHolders(steps: seq<Step>)
    ensures Run(INIT, steps).Some?
    ensures var w := Run(INIT, steps).value;
            && Valid(w.table)
            && (forall id: SessionID :: id in w.table.slots <==> Holders(w.holds, id) != {})
            && (forall id <- w.table.slots :: w.table.slots[id].count == |Holders(w.holds, id)|)
            && (forall h <- w.holds ::
                  && w.holds[h].session < |w.table.history|
                  && w.table.history[w.holds[h].session].secret == w.holds[h].secret
                  && w.table.history[w.holds[h].session].id == w.holds[h].id
                  && w.table.history[w.holds[h].session].closes == 0)
            && (forall g, h :: g in w.holds && h in w.holds && w.holds[g].id == w.holds[h].id ==>
                  w.holds[g].session == w.holds[h].session && w.holds[g].secret == w.holds[h].secret)
            && (forall x :: 0 <= x < |w.table.history| ==>
                  w.table.history[x].closes == if exists h :: h in w.holds && w.holds[h].session == x then 0 else 1)
            && (forall x, y :: 0 <= x < y < |w.table.history|
                               && w.table.history[x].closes == 0 && w.table.history[y].closes == 0 ==>
                  w.table.history[x].id != w.table.history[y].id)
  {
    var w := RunKeeps(INIT, steps);
    assert Inv(w);
    forall id: SessionID ensures id in w.table.slots <==> Holders(w.holds, id) != {} {
      if h :| h in Holders(w.holds, id) {
        assert HoldInv(w, h);
      }
      if id in w.table.slots {
        assert SlotInv(w, id);
      }
    }
    forall id <- w.table.slots ensures w.table.slots[id].count == |Holders(w.holds, id)| {
      assert SlotInv(w, id);
    }
    forall h <- w.holds
      ensures w.holds[h].session < |w.table.history|
      ensures w.table.history[w.holds[h].session].secret == w.holds[h].secret
      ensures w.table.history[w.holds[h].session].id == w.holds[h].id
      ensures w.table.history[w.holds[h].session].closes == 0
    {
      assert HoldInv(w, h) && SlotInv(w, w.holds[h].id);
    }
    forall g, h | g in w.holds && h in w.holds && w.holds[g].id == w.holds[h].id
      ensures w.holds[g].session == w.holds[h].session && w.holds[g].secret == w.holds[h].secret
    {
      assert HoldInv(w, g) && HoldInv(w, h);
    }
    forall x | 0 <= x < |w.table.history|
      ensures w.table.history[x].closes == if exists h :: h in w.holds && w.holds[h].session == x then 0 else 1
    {
      ClosedIffUnheld(w, x);
    }
    forall x, y | 0 <= x < y < |w.table.history| && w.table.history[x].closes == 0 && w.table.history[y].closes == 0
      ensures w.table.history[x].id != w.table.history[y].id
    {
      assert SessionInv(w.table, x) && SessionInv(w.table, y);
    }
  }

  /** Somebody holds the session of this id and showed this secret. */
  predicate HeldWith(holds: map<nat, Hold>, id: SessionID, secret: Secret) {
    exists g :: g in holds && holds[g].id == id && holds[g].secret == secret
  }

  predicate HeldByAny(holds: map<nat, Hold>, id: SessionID) {
    exists g :: g in holds && holds[g].id == id
  }

  lemma HeldIffSlot(w: World, id: SessionID)
    requires Inv(w) && Valid(w.table)
    ensures HeldByAny(w.holds, id) <==> id in w.table.slots
    ensures forall secret: Secret :: HeldWith(w.holds, id, secret)
              <==> id in w.table.slots && w.table.history[w.table.slots[id].session].secret == secret
  {
    if id in w.table.slots {
      assert SlotInv(w, id);
      var g :| g in Holders(w.holds, id);
      assert HoldInv(w, g);
      assert HeldWith(w.holds, id, w.holds[g].secret);
    }
    forall g | g in w.holds && w.holds[g].id == id
      ensures id in w.table.slots && w.table.history[w.table.slots[id].session].secret == w.holds[g].secret
    {
      assert HoldInv(w, g);
    }
  }

  /** After any run, a handler that connects gets the session if and only if it shows the secret of those
      who hold it, or nobody does and it can be opened. In the first case it gets the session object they
      hold, in the second a new one. Nobody else notices. */
  lemma ConnectIff(steps: seq<Step>, h: nat, id: SessionID, secret: Secret, canOpen: bool)
    requires Run(INIT, steps).Some? && h !in Run(INIT, steps).value.holds && Valid(Run(INIT, steps).value.table)
    ensures var w := Run(INIT, steps).value;
            var w' := Apply(w, Connect(h, id, secret, canOpen));
            var r := AcquireResult(w.table, id, secret, canOpen);
            && (h in w'.holds <==> HeldWith(w.holds, id, secret) || (!HeldByAny(w.holds, id) && canOpen))
            && (h in w'.holds ==> w'.holds[h].id == id && w'.holds[h].secret == secret && r == Ok(w'.holds[h].session))
            && (forall g <- w.holds :: h in w'.holds && w.holds[g].id == id ==>
                  w'.holds[h].session == w.holds[g].session)
            && (h in w'.holds && !HeldByAny(w.holds, id) ==> w'.holds[h].session == |w.table.history|)
            && (h !in w'.holds ==>
                  w' == w && r == Err(if HeldByAny(w.holds, id) then InvalidSecret else OpenFailed))
            && w'.holds.Keys - {h} == w.holds.Keys && forall g <- w.holds :: w'.holds[g] == w.holds[g]
  {
    var w := RunKeeps(INIT, steps);
    HeldIffSlot(w, id);
    forall g <- w.holds ensures HoldInv(w, g) {
    }
  }

  /** A handler that leaves is the only one that does, and the session is closed if it was the last. */
  lemma LeaveEffect(steps: seq<Step>, h: nat)
    requires Run(INIT, steps).Some? && h in Run(INIT, steps).value.holds && Valid(Run(INIT, steps).value.table)
    ensures var w := Run(INIT, steps).value;
            var w' := Apply(w, Leave(h));
            var x := w.holds[h].session;
            && w'.holds == w.holds - {h} && x < |w.table.history| == |w'.table.history|
            && (forall y :: 0 <= y < |w.table.history| && y != x ==> w'.table.history[y] == w.table.history[y])
            && w'.table.history[x] == w.table.history[x].(closes :=
                 if exists g :: g in w.holds && g != h && w.holds[g].session == x then 0 else 1)
  {
    var w := RunKeeps(INIT, steps);
    LeaveDoes(w, h);
  }

  lemma ReleaseHistory(t: Table, id: SessionID)
    requires Valid(t) && id in t.slots
    ensures var u, x := Release(t, id), t.slots[id].session;
            && |u.history| == |t.history|
            && u.history[x] == t.history[x].(closes := u.history[x].closes)
            && forall y :: 0 <= y < |t.history| && y != x ==> u.history[y] == t.history[y]
  {
  }

  lemma LeaveDoes(w: World, h: nat)
    requires Inv(w) && Valid(w.table) && h in w.holds
    ensures var w' := Apply(w, Leave(h));
            var x := w.holds[h].session;
            && w'.holds == w.holds - {h} && x < |w.table.history| == |w'.table.history|
            && (forall y :: 0 <= y < |w.table.history| && y != x ==> w'.table.history[y] == w.table.history[y])
            && w'.table.history[x] == w.table.history[x].(closes :=
                 if exists g :: g in w.holds && g != h && w.holds[g].session == x then 0 else 1)
  {
    hide Release, SlotInv, SessionInv;
    assert HoldInv(w, h);
    ReleaseHistory(w.table, w.holds[h].id);
    LeaveKeeps(w, h);
    var w', x := Apply(w, Leave(h)), w.holds[h].session;
    ClosedIffUnheld(w', x);
    if g :| g in w.holds && g != h && w.holds[g].session == x {
      assert g in w'.holds && w'.holds[g].session == x;
    }
    if g :| g in w'.holds && w'.holds[g].session == x {
      assert g in w.holds && g != h && w.holds[g].session == x;
    }
  }

  lemma ClosedIffUnheld(w: World, x: nat)
    requires Inv(w) && x < |w.table.history|
    ensures w.table.history[x].closes == if exists h :: h in w.holds && w.holds[h].session == x then 0 else 1
  {
    assert SessionInv(w.table, x);
    var id := w.table.history[x].id;
    if h :| h in w.holds && w.holds[h].session == x {
      assert HoldInv(w, h) && SlotInv(w, w.holds[h].id);
    }
    if id in w.table.slots && w.table.slots[id].session == x {
      assert SlotInv(w, id);
      var h :| h in Holders(w.holds, id);
      assert HoldInv(w, h);
    }
  }
}
