/** Following a WAL: `WALStream.Next` (shared/wal/wal.go) and the loop around it that feeds a player
    (server/internal/session/session.go), interleaved with appends in every possible way.

    `Next` takes the WAL's lock twice, once to copy the notify channel and once in `Get`, and then
    waits. Between any two of these an append may happen, so each is a step of its own. */
module Stream {
  import opened Wrappers
  import opened Bytes
  import opened WalEntry
  import opened WalState
  import opened Wal

  datatype Phase = Idle | HasChannel(ch: nat) | Waiting(ch: nat)

  datatype Indexed = Indexed(index: uint32, entry: Entry)

  /** `index` belongs to the stream and `walIndex` to the player it feeds. */
  datatype Follower = Follower(index: uint32, phase: Phase, walIndex: uint32,
                               yielded: seq<Indexed>, sent: seq<Indexed>)

  function Subscribe(walIndex: uint32): Follower {
    Follower(walIndex, Idle, walIndex, [], [])
  }

  predicate Closed(wal: State, ch: nat) {
    ch < wal.notify
  }

  /** handleWalStream, given what `Next` returned. */
  function Deliver(f: Follower, x: Indexed): Follower {
    if x.index < f.walIndex then f
    else f.(walIndex := Add32(x.index, 1), sent := f.sent + [x])
  }

  /** The next atomic section of the stream; waiting on an open channel does nothing. */
  function Section(f: Follower, wal: State): Follower {
    match f.phase
    case Idle => f.(phase := HasChannel(wal.notify))
    case HasChannel(ch) =>
      (match Get(wal, f.index)
       case None => f.(phase := Waiting(ch))
       case Some(e) =>
         var x := Indexed(f.index, e);
         Deliver(f.(index := Add32(f.index, 1), phase := Idle, yielded := f.yielded + [x]), x))
    case Waiting(ch) => if Closed(wal, ch) then f.(phase := Idle) else f
  }

  /** The code of the stream's sections, on the object. */
  class WALStream {
    const wal: WAL
    var index: uint32
    var phase: Phase

    constructor (wal: WAL, index: uint32)
      ensures this.wal == wal && this.index == index && phase == Idle
    {
      this.wal, this.index, this.phase := wal, index, Idle;
    }

    method Next() returns (r: Option<Indexed>)
      requires wal.Valid()
      modifies this
      ensures forall f: Follower :: f.index == old(index) && f.phase == old(phase) ==>
                var g := Section(f, wal.View());
                && index == g.index && phase == g.phase
                && g.yielded == match r case None => f.yielded case Some(x) => f.yielded + [x]
    {
      r := None;
      match phase {
        case Idle => phase := HasChannel(wal.notify);
        case HasChannel(ch) =>
          var e := wal.Get(index);
          if e.Some? {
            r := Some(Indexed(index, e.value));
            index := Add32(index, 1);
            phase := Idle;
          } else {
            phase := Waiting(ch);
          }
        case Waiting(ch) =>
          if ch < wal.notify {
            phase := Idle;
          }
      }
    }
  }

  // ---- Every interleaving --------------------------------------------------

  datatype Step = Append(e: Entry, io: AppendIo) | Follow

  datatype World = World(wal: State, f: Follower)

  /** The log has room for one more entry without the 32-bit counter wrapping. */
  predicate HasRoom(s: State) {
    |s.entries| < UINT32_MODULUS - 1
  }

  function Apply(w: World, step: Step): World {
    match step
    case Append(e, io) => if HasRoom(w.wal) then w.(wal := AppendState(w.wal, e, io)) else w
    case Follow => w.(f := Section(w.f, w.wal))
  }

  function Run(w: World, steps: seq<Step>): World
    decreases |steps|
  {
    if steps == [] then w else Run(Apply(w, steps[0]), steps[1..])
  }

  /** The stream has yielded the log's entries from `start` on, one by one. */
  ghost predicate Consecutive(yielded: seq<Indexed>, start: nat, log: seq<Entry>) {
    && (yielded != [] ==> start + |yielded| <= |log|)
    && forall k :: 0 <= k < |yielded| ==>
         yielded[k].index == start + k && yielded[k].entry == log[start + k]
  }

  /** A waiting stream whose entry has arrived waits on a closed channel. */
  predicate WillWake(w: World) {
    w.f.phase.Waiting? && w.f.index < |w.wal.entries| ==> Closed(w.wal, w.f.phase.ch)
  }

  ghost predicate Inv(w: World, start: nat) {
    && Sound(w.wal) && |w.wal.entries| < UINT32_MODULUS
    && w.f.index == w.f.walIndex == start + |w.f.yielded|
    && w.f.sent == w.f.yielded
    && Consecutive(w.f.yielded, start, w.wal.entries)
    && (!w.f.phase.Idle? ==> w.f.phase.ch <= w.wal.notify)
    && WillWake(w)
  }

  lemma AppendKeepsInv(w: World, start: nat, e: Entry, io: AppendIo)
    requires Inv(w, start)
    ensures Inv(Apply(w, Append(e, io)), start)
    ensures w.wal.entries <= Apply(w, Append(e, io)).wal.entries
  {
    AppendKeepsSound(w.wal, e, io);
  }

  lemma ConsecutiveSnoc(yielded: seq<Indexed>, start: nat, log: seq<Entry>)
    requires Consecutive(yielded, start, log) && |log| < UINT32_MODULUS
    requires start + |yielded| < |log|
    ensures Consecutive(yielded + [Indexed(start + |yielded|, log[start + |yielded|])], start, log)
  {
  }

  lemma FollowKeepsInv(w: World, start: nat)
    requires Inv(w, start)
    ensures Inv(Apply(w, Follow), start)
  {
    var next := Get(w.wal, w.f.index);
    if w.f.phase.HasChannel? && next.Some? {
      ConsecutiveSnoc(w.f.yielded, start, w.wal.entries);
    }
  }

  lemma StepKeepsInv(w: World, start: nat, step: Step)
    requires Inv(w, start)
    ensures Inv(Apply(w, step), start)
    ensures w.wal.entries <= Apply(w, step).wal.entries
  {
    match step {
      case Append(e, io) => AppendKeepsInv(w, start, e, io);
      case Follow => FollowKeepsInv(w, start);
    }
  }

  lemma {:induction false} RunKeepsInv(w: World, start: nat, steps: seq<Step>)
    requires Inv(w, start)
    ensures Inv(Run(w, steps), start)
    ensures w.wal.entries <= Run(w, steps).wal.entries
    decreases |steps|
  {
    if steps != [] {
      StepKeepsInv(w, start, steps[0]);
      RunKeepsInv(Apply(w, steps[0]), start, steps[1..]);
    }
  }

  /** However appends interleave with the sections of `Next`, a stream opened at `start` yields
      start, start + 1, ... with the entries the log has there, no gap and no repeat; the guard
      against an index already passed never skips one; and a stream that waits although its next
      entry is in the log waits on a channel that is already closed. */
  lemma NoLostWakeup(wal: State, start: uint32, steps: seq<Step>)
    requires Sound(wal) && |wal.entries| < UINT32_MODULUS
    ensures var w := Run(World(wal, Subscribe(start)), steps);
            && wal.entries <= w.wal.entries
            && Consecutive(w.f.yielded, start, w.wal.entries)
            && w.f.index == start + |w.f.yielded|
            && w.f.sent == w.f.yielded
            && WillWake(w)
  {
    RunKeepsInv(World(wal, Subscribe(start)), start, steps);
  }

  function Sections(f: Follower, wal: State, n: nat): Follower
    decreases n
  {
    if n == 0 then f else Sections(Section(f, wal), wal, n - 1)
  }

  /** Hence a stream is never stuck behind: whatever it was doing, at most three of its own sections
      later it has sent the next entry. */
  lemma NeverStuck(w: World, start: nat)
    requires Inv(w, start)
    requires w.f.index < |w.wal.entries|
    ensures exists n :: n <= 3 && Sections(w.f, w.wal, n).sent
                                  == w.f.sent + [Indexed(w.f.index, w.wal.entries[w.f.index])]
  {
    var n := match w.f.phase case HasChannel(_) => 1 case Idle => 2 case Waiting(_) => 3;
    var one := Section(w.f, w.wal);
    var two := Section(one, w.wal);
    var three := Section(two, w.wal);
    assert Sections(three, w.wal, 0) == three;
    assert Sections(two, w.wal, 1) == three && Sections(two, w.wal, 0) == two;
    assert Sections(one, w.wal, n - 1) == match n case 1 => one case 2 => two case _ => three;
    assert Sections(w.f, w.wal, n) == Sections(one, w.wal, n - 1);
    assert Sections(w.f, w.wal, n).sent == w.f.sent + [Indexed(w.f.index, w.wal.entries[w.f.index])];
  }
}
