/** The three length-prefixed byte formats of the repository, and reading them back.

    - a WAL file: 4-byte length, entry                       (shared/wal/wal.go)
    - a send queue file: 16-byte id, 4-byte length, entry    (client/internal/game/send_queue.go)
    - a connection: 2-byte length, 1-byte opcode, data       (shared/protocol/io.go)

    All three are a fixed-size header holding the length of the payload that follows, read with
    two calls of io.ReadFull, so they share one theory. */
module Framing {
  import opened Bytes
  import opened Sequences

  datatype Kind = WalRecord | QueueRecord | WirePacket

  function HeaderSize(k: Kind): (n: nat)
    ensures 0 < n
  {
    match k
    case WalRecord => 4
    case QueueRecord => 20
    case WirePacket => 3
  }

  function PayloadSize(k: Kind, header: seq<byte>): nat
    requires |header| == HeaderSize(k)
  {
    match k
    case WalRecord => FromLE32(header)
    case QueueRecord => FromLE32(header[16..20])
    case WirePacket => FromLE16(header[0..2])
  }

  datatype Frame = Frame(header: seq<byte>, payload: seq<byte>)

  predicate WellFormed(k: Kind, f: Frame) {
    |f.header| == HeaderSize(k) && PayloadSize(k, f.header) == |f.payload|
  }

  predicate AllWellFormed(k: Kind, fs: seq<Frame>) {
    forall i :: 0 <= i < |fs| ==> WellFormed(k, fs[i])
  }

  function FrameBytes(f: Frame): seq<byte> {
    f.header + f.payload
  }

  function Join(fs: seq<Frame>): seq<byte> {
    if fs == [] then [] else FrameBytes(fs[0]) + Join(fs[1..])
  }

  /** Where the bytes ran out. The error of io.ReadFull is io.EOF when no byte could be read, which
      is the case both at a boundary and right after a header that announces a payload; otherwise it
      is io.ErrUnexpectedEOF. */
  datatype End = AtBoundary | InHeader | AfterHeader | InPayload

  datatype Scan = Scan(frames: seq<Frame>, end: End)

  /** The first frame of a byte string, if it is whole. */
  datatype Head = Cut(end: End) | Head(frame: Frame)

  function First(k: Kind, b: seq<byte>): (r: Head)
    ensures r.Head? ==> WellFormed(k, r.frame) && FrameBytes(r.frame) <= b && 0 < |FrameBytes(r.frame)|
    ensures r.Cut? && r.end == AtBoundary ==> b == []
  {
    var h := HeaderSize(k);
    if b == [] then Cut(AtBoundary)
    else if |b| < h then Cut(InHeader)
    else
      var n := PayloadSize(k, b[..h]);
      if |b| < h + n then Cut(if |b| == h then AfterHeader else InPayload)
      else
        assert b[..h] + b[h..h + n] == b[..h + n];
        Head(Frame(b[..h], b[h..h + n]))
  }

  function ScanAll(k: Kind, b: seq<byte>): Scan
    decreases |b|
  {
    match First(k, b)
    case Cut(end) => Scan([], end)
    case Head(f) =>
      var rest := ScanAll(k, b[|FrameBytes(f)|..]);
      Scan([f] + rest.frames, rest.end)
  }

  /** The end reached when a frame is cut after `n` of its bytes. */
  function CutEnd(k: Kind, n: nat): End {
    if n == 0 then AtBoundary
    else if n < HeaderSize(k) then InHeader
    else if n == HeaderSize(k) then AfterHeader
    else InPayload
  }

  /** How many of the frames are entirely within the first `n` bytes of their concatenation. */
  function WholeFrames(fs: seq<Frame>, n: nat): (m: nat)
    ensures m <= |fs|
  {
    if fs == [] || n < |FrameBytes(fs[0])| then 0
    else 1 + WholeFrames(fs[1..], n - |FrameBytes(fs[0])|)
  }

  // ---- Concatenation -------------------------------------------------------

  lemma {:induction false} JoinAppend(fs: seq<Frame>, gs: seq<Frame>)
    ensures Join(fs + gs) == Join(fs) + Join(gs)
  {
    if fs == [] {
      assert fs + gs == gs;
    } else {
      assert (fs + gs)[1..] == fs[1..] + gs;
      JoinAppend(fs[1..], gs);
    }
  }

  lemma JoinCons(f: Frame, fs: seq<Frame>)
    ensures Join([f] + fs) == FrameBytes(f) + Join(fs)
  {
    assert ([f] + fs)[1..] == fs;
  }

  lemma JoinSnoc(fs: seq<Frame>, f: Frame)
    ensures Join(fs + [f]) == Join(fs) + FrameBytes(f)
  {
    JoinAppend(fs, [f]);
    assert Join([f]) == FrameBytes(f) + Join([]);
  }

  lemma ScanStep(k: Kind, f: Frame, rest: seq<byte>)
    requires WellFormed(k, f)
    ensures ScanAll(k, FrameBytes(f) + rest)
         == Scan([f] + ScanAll(k, rest).frames, ScanAll(k, rest).end)
  {
    var b := FrameBytes(f) + rest;
    var h := |f.header|;
    assert b[..h] == f.header;
    assert b[h..h + |f.payload|] == f.payload;
    assert First(k, b) == Head(f);
    assert b[|FrameBytes(f)|..] == rest;
  }

  /** Reading back concatenated frames returns them, then whatever the tail holds. */
  lemma {:induction false} ScanJoin(k: Kind, fs: seq<Frame>, tail: seq<byte>)
    requires AllWellFormed(k, fs)
    ensures ScanAll(k, Join(fs) + tail)
         == Scan(fs + ScanAll(k, tail).frames, ScanAll(k, tail).end)
  {
    if fs == [] {
      assert Join(fs) + tail == tail;
    } else {
      var more := ScanAll(k, tail).frames;
      ScanJoin(k, fs[1..], tail);
      ScanStep(k, fs[0], Join(fs[1..]) + tail);
      Associative(FrameBytes(fs[0]), Join(fs[1..]), tail);
      Associative([fs[0]], fs[1..], more);
      assert fs == [fs[0]] + fs[1..];
    }
  }

  lemma ScanExact(k: Kind, fs: seq<Frame>)
    requires AllWellFormed(k, fs)
    ensures ScanAll(k, Join(fs)) == Scan(fs, AtBoundary)
  {
    ScanJoin(k, fs, []);
    assert Join(fs) + [] == Join(fs);
    assert fs + [] == fs;
  }

  /** Conversely, what a scan returns is a split of the bytes, with nothing left over exactly at a
      boundary. */
  lemma {:induction false} ScanSplits(k: Kind, b: seq<byte>)
    ensures var s := ScanAll(k, b);
            && AllWellFormed(k, s.frames)
            && Join(s.frames) <= b
            && (s.end == AtBoundary <==> Join(s.frames) == b)
    decreases |b|
  {
    match First(k, b) {
      case Cut(_) =>
      case Head(f) =>
        var rest := b[|FrameBytes(f)|..];
        ScanSplits(k, rest);
        SplitCons(k, f, ScanAll(k, rest).frames, b);
    }
  }

  lemma SplitCons(k: Kind, f: Frame, fs: seq<Frame>, b: seq<byte>)
    requires WellFormed(k, f) && AllWellFormed(k, fs)
    requires FrameBytes(f) <= b
    requires Join(fs) <= b[|FrameBytes(f)|..]
    ensures AllWellFormed(k, [f] + fs)
    ensures Join([f] + fs) <= b
    ensures Join([f] + fs) == b <==> Join(fs) == b[|FrameBytes(f)|..]
  {
    JoinCons(f, fs);
    PrefixShift(FrameBytes(f), Join(fs), b);
  }

  /** A byte string is the concatenation of frames in at most one way. */
  lemma SplitUnique(k: Kind, fs: seq<Frame>, gs: seq<Frame>)
    requires AllWellFormed(k, fs) && AllWellFormed(k, gs)
    requires Join(fs) == Join(gs)
    ensures fs == gs
  {
    ScanExact(k, fs);
    ScanExact(k, gs);
  }

  // ---- Reading in a loop ---------------------------------------------------

  /** A loop that has read `done` from `b` and still has `rest` before it. */
  predicate ReadSoFar(k: Kind, b: seq<byte>, done: seq<Frame>, rest: seq<byte>) {
    && AllWellFormed(k, done)
    && ScanAll(k, b) == Scan(done + ScanAll(k, rest).frames, ScanAll(k, rest).end)
  }

  lemma ReadStart(k: Kind, b: seq<byte>)
    ensures ReadSoFar(k, b, [], b)
  {
    assert [] + ScanAll(k, b).frames == ScanAll(k, b).frames;
  }

  lemma ReadTurn(k: Kind, b: seq<byte>, done: seq<Frame>, rest: seq<byte>)
    requires ReadSoFar(k, b, done, rest) && First(k, rest).Head?
    ensures var f := First(k, rest).frame;
            ReadSoFar(k, b, done + [f], rest[|FrameBytes(f)|..])
  {
    var f := First(k, rest).frame;
    Associative(done, [f], ScanAll(k, rest[|FrameBytes(f)|..]).frames);
  }

  lemma ReadEnd(k: Kind, b: seq<byte>, done: seq<Frame>, rest: seq<byte>)
    requires ReadSoFar(k, b, done, rest) && First(k, rest).Cut?
    ensures ScanAll(k, b) == Scan(done, First(k, rest).end)
  {
    assert done + [] == done;
  }

  // ---- Cuts ----------------------------------------------------------------

  lemma PartialFrame(k: Kind, f: Frame, n: nat)
    requires WellFormed(k, f)
    requires n < |FrameBytes(f)|
    ensures ScanAll(k, FrameBytes(f)[..n]) == Scan([], CutEnd(k, n))
  {
    var b := FrameBytes(f)[..n];
    if n >= HeaderSize(k) {
      assert b[..HeaderSize(k)] == f.header;
    }
  }

  lemma {:induction false} WholeFramesFit(fs: seq<Frame>, n: nat)
    requires n <= |Join(fs)|
    ensures var m := WholeFrames(fs, n);
            && |Join(fs[..m])| <= n
            && (m < |fs| ==> n < |Join(fs[..m])| + |FrameBytes(fs[m])|)
  {
    if fs != [] && n >= |FrameBytes(fs[0])| {
      var m := WholeFrames(fs, n);
      WholeFramesFit(fs[1..], n - |FrameBytes(fs[0])|);
      assert fs[..m][1..] == fs[1..][..m - 1];
    }
  }

  /** Reading concatenated frames cut after any number of bytes returns exactly the frames that are
      whole within the cut, in order, and the end depends only on how far into the next frame the
      cut falls. */
  lemma {:induction false} ScanCut(k: Kind, fs: seq<Frame>, n: nat)
    requires AllWellFormed(k, fs)
    requires n <= |Join(fs)|
    ensures var m := WholeFrames(fs, n);
            && |Join(fs[..m])| <= n
            && ScanAll(k, Join(fs)[..n]) == Scan(fs[..m], CutEnd(k, n - |Join(fs[..m])|))
  {
    WholeFramesFit(fs, n);
    var m := WholeFrames(fs, n);
    var head, j := fs[..m], |Join(fs[..m])|;
    JoinSplit(fs, m);
    var tail := Join(fs[m..])[..n - j];
    assert Join(fs)[..n] == Join(head) + tail by { PrefixPastEnd(Join(head), Join(fs[m..]), n); }
    ScanTail(k, fs[m..], n - j);
    ScanJoin(k, head, tail);
    assert head + [] == head;
  }

  lemma JoinSplit(fs: seq<Frame>, m: nat)
    requires m <= |fs|
    ensures Join(fs) == Join(fs[..m]) + Join(fs[m..])
  {
    hide Join;
    JoinAppend(fs[..m], fs[m..]);
    assert fs[..m] + fs[m..] == fs;
  }

  lemma ScanTail(k: Kind, fs: seq<Frame>, n: nat)
    requires AllWellFormed(k, fs)
    requires n <= |Join(fs)|
    requires fs != [] ==> n < |FrameBytes(fs[0])|
    ensures ScanAll(k, Join(fs)[..n]) == Scan([], CutEnd(k, n))
  {
    if fs != [] {
      assert Join(fs)[..n] == FrameBytes(fs[0])[..n];
      PartialFrame(k, fs[0], n);
    }
  }
}
