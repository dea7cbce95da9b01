/** What the send queue is and what its operations do to it: the value-level specification of
    client/internal/game/send_queue.go, and what survives a restart. */
module QueueState {
  import opened Wrappers
  import opened Bytes
  import opened WalEntry
  import opened Framing
  import opened Files

  type Live = map<Key, seq<byte>>

  datatype LoadError = Torn

  datatype Queue = Queue(file: seq<byte>, offset: nat, live: Live)

  const EMPTY := Queue([], 0, map[])

  // ---- The file ------------------------------------------------------------

  function IdOf(f: Frame): Key
    requires |f.header| == 20
  {
    f.header[..16]
  }

  function QueueFrame(id: Key, data: seq<byte>): (f: Frame)
    requires |data| < UINT32_MODULUS
    ensures WellFormed(QueueRecord, f) && IdOf(f) == id && f.payload == data
    ensures FrameBytes(f) == id + LE32(|data|) + data
  {
    var header := id + LE32(|data|);
    assert header[16..20] == LE32(|data|);
    assert header[..16] == id;
    LE32Inverse(|data|);
    Frame(header, data)
  }

  function Record(id: Key, data: seq<byte>): seq<byte>
    requires |data| < UINT32_MODULUS
  {
    FrameBytes(QueueFrame(id, data))
  }

  /** The records of the file in order, a later one overriding an earlier one of the same id. */
  function Latest(fs: seq<Frame>): Live
    requires AllWellFormed(QueueRecord, fs)
  {
    if fs == [] then map[]
    else
      var f := fs[|fs| - 1];
      Latest(fs[..|fs| - 1])[IdOf(f) := f.payload]
  }

  function Load(b: seq<byte>): Result<Live, LoadError> {
    var s := ScanAll(QueueRecord, b);
    ScanSplits(QueueRecord, b);
    if s.end == AtBoundary then Ok(Latest(s.frames)) else Err(Torn)
  }

  // ---- The operations ------------------------------------------------------

  function Open(file: seq<byte>): Result<Queue, LoadError> {
    match Load(file)
    case Err(x) => Err(x)
    case Ok(m) => Ok(Queue(file, |file|, m))
  }

  /** How far `Add` gets: all the way, or which call fails after how many of its bytes. */
  datatype AddIo = Added | SeekFails | IdFails(n: nat) | LengthFails(n: nat) | DataFails(n: nat) | SyncFails

  /** What `Add` leaves at the end of the file. Unlike the WAL, it does not cut a failed write back. */
  function Left(id: Key, data: seq<byte>, io: AddIo): seq<byte>
    requires |data| < UINT32_MODULUS
  {
    match io
    case SeekFails => []
    case IdFails(n) => Written(id, Some(n))
    case LengthFails(n) => id + Written(LE32(|data|), Some(n))
    case DataFails(n) => id + LE32(|data|) + Written(data, Some(n))
    case _ => Record(id, data)
  }

  function AddState(q: Queue, id: Key, data: seq<byte>, io: AddIo): Queue
    requires |data| < UINT32_MODULUS
  {
    if id in q.live || io == SeekFails then q
    else
      var file := q.file + Left(id, data, io);
      Queue(file, |file|, if io == Added then q.live[id := data] else q.live)
  }

  predicate AddOk(q: Queue, id: Key, io: AddIo) {
    id in q.live || io == Added
  }

  function AckState(q: Queue, id: Key, truncateOk: bool): Queue {
    if |q.live| == 0 then q
    else
      var live := q.live - {id};
      if |live| == 0 && truncateOk then Queue([], 0, live) else q.(live := live)
  }

  // ---- Agreement of file and map -------------------------------------------

  /** Reloading the file finds every live key with its exact data. */
  predicate Faithful(q: Queue) {
    && Load(q.file).Ok?
    && forall k <- q.live :: k in Load(q.file).value && Load(q.file).value[k] == q.live[k]
  }

  /** The write left nothing, or a whole record. */
  predicate Untorn(q: Queue, id: Key, data: seq<byte>, io: AddIo)
    requires |data| < UINT32_MODULUS
  {
    id in q.live || |Left(id, data, io)| == 0 || |Left(id, data, io)| == |Record(id, data)|
  }

  /** How much of a record an `Add` leaves: all that got written before the call that failed. */
  lemma LeftIs(id: Key, data: seq<byte>, io: AddIo)
    requires |data| < UINT32_MODULUS
    ensures Left(id, data, io) == Record(id, data)[..|Left(id, data, io)|]
    ensures |Left(id, data, io)| ==
              match io
              case SeekFails => 0
              case IdFails(n) => if n < 16 then n else 16
              case LengthFails(n) => 16 + if n < 4 then n else 4
              case DataFails(n) => 20 + if n < |data| then n else |data|
              case _ => 20 + |data|
  {
    LeftIsPrefix(id, data, io);
  }

  /** What an `Add` does to map and file: nothing for a duplicate. */
  lemma AddOutcome(q: Queue, id: Key, data: seq<byte>, io: AddIo)
    requires |data| < UINT32_MODULUS
    ensures var t := AddState(q, id, data, io);
            && (id in q.live ==> t == q)
            && (id !in q.live ==> t.file == q.file + Left(id, data, io))
            && (forall k :: k in t.live <==> k in q.live || (k == id && io == Added))
            && (forall k <- q.live :: t.live[k] == q.live[k])
            && (id !in q.live && io == Added ==> t.live[id] == data)
  {
    hide Left;
    assert q.file + [] == q.file;
    if io == SeekFails { SeekLeaves(id, data); }
  }

  lemma SeekLeaves(id: Key, data: seq<byte>)
    requires |data| < UINT32_MODULUS
    ensures Left(id, data, SeekFails) == []
  {
  }

  /** What an `Ack` does: the file is emptied with the last entry, unless that fails. */
  lemma AckOutcome(q: Queue, id: Key, truncateOk: bool)
    ensures var t := AckState(q, id, truncateOk);
            && t.live == q.live - {id}
            && t.file == if q.live != map[] && t.live == map[] && truncateOk then [] else q.file
  {
    if |q.live| == 0 {
      assert q.live == map[];
    }
    if |q.live - {id}| == 0 {
      assert q.live - {id} == map[];
    }
  }

  lemma LeftIsPrefix(id: Key, data: seq<byte>, io: AddIo)
    requires |data| < UINT32_MODULUS
    ensures |Left(id, data, io)| <= |Record(id, data)|
    ensures Left(id, data, io) == Record(id, data)[..|Left(id, data, io)|]
  {
  }

  lemma LoadRecord(b: seq<byte>, id: Key, data: seq<byte>)
    requires Load(b).Ok? && |data| < UINT32_MODULUS
    ensures Load(b + Record(id, data)) == Ok(Load(b).value[id := data])
  {
    var fs, f := ScanAll(QueueRecord, b).frames, QueueFrame(id, data);
    ScanSplits(QueueRecord, b);
    assert ScanAll(QueueRecord, b + Record(id, data)) == Scan(fs + [f], AtBoundary) by {
      JoinSnoc(fs, f);
      ScanExact(QueueRecord, fs + [f]);
    }
    assert (fs + [f])[..|fs|] == fs;
  }

  lemma {:induction false} LatestConcat(fs: seq<Frame>, gs: seq<Frame>)
    requires AllWellFormed(QueueRecord, fs) && AllWellFormed(QueueRecord, gs)
    ensures Latest(fs + gs) == Latest(fs) + Latest(gs)
  {
    hide WellFormed, IdOf;
    if gs == [] {
      assert fs + gs == fs;
    } else {
      var init, f := gs[..|gs| - 1], gs[|gs| - 1];
      assert gs == init + [f] && fs + gs == (fs + init) + [f];
      LatestConcat(fs, init);
      LatestSnoc(init, f);
      LatestSnoc(fs + init, f);
    }
  }

  lemma LatestSnoc(fs: seq<Frame>, f: Frame)
    requires AllWellFormed(QueueRecord, fs) && WellFormed(QueueRecord, f)
    ensures AllWellFormed(QueueRecord, fs + [f]) && Latest(fs + [f]) == Latest(fs)[IdOf(f) := f.payload]
  {
    assert (fs + [f])[..|fs|] == fs;
  }

  /** Whatever is put behind a loadable file, as long as the whole can be read nothing that was in the
      file disappears: a key is overridden only by a record, read from behind it, of the same key. */
  lemma LoadAppend(b: seq<byte>, t: seq<byte>)
    requires Load(b).Ok?
    ensures Load(b + t).Ok? <==> Load(t).Ok?
    ensures Load(t).Ok? ==> Load(b + t).value == Load(b).value + Load(t).value
  {
    var fs, s := ScanAll(QueueRecord, b).frames, ScanAll(QueueRecord, t);
    ScanSplits(QueueRecord, b);
    ScanSplits(QueueRecord, t);
    ScanJoin(QueueRecord, fs, t);
    LatestConcat(fs, s.frames);
  }

  lemma LoadTorn(b: seq<byte>, id: Key, data: seq<byte>, n: nat)
    requires Load(b).Ok? && |data| < UINT32_MODULUS
    requires 0 < n < |Record(id, data)|
    ensures Load(b + Record(id, data)[..n]).Err?
  {
    var fs := ScanAll(QueueRecord, b).frames;
    ScanSplits(QueueRecord, b);
    ScanJoin(QueueRecord, fs, Record(id, data)[..n]);
    PartialFrame(QueueRecord, QueueFrame(id, data), n);
  }

  /** Whether a queue can be reopened after `Add` depends exactly on what the write left: a torn
      record makes the whole file unreadable, while a failed `Add` that left a whole record brings
      that entry back at the next start. */
  lemma AddReload(q: Queue, id: Key, data: seq<byte>, io: AddIo)
    requires Faithful(q) && |data| < UINT32_MODULUS
    ensures var t := AddState(q, id, data, io);
            && (Load(t.file).Ok? <==> Untorn(q, id, data, io))
            && (Load(t.file).Ok? ==>
                  Faithful(t) && Load(t.file).value ==
                    if id in q.live || |Left(id, data, io)| == 0 then Load(q.file).value
                    else Load(q.file).value[id := data])
  {
    var n := |Left(id, data, io)|;
    LeftIsPrefix(id, data, io);
    if id in q.live || n == 0 {
      assert q.file + Left(id, data, io) == q.file || id in q.live;
    } else if n == |Record(id, data)| {
      assert Left(id, data, io) == Record(id, data);
      LoadRecord(q.file, id, data);
    } else {
      LoadTorn(q.file, id, data, n);
    }
  }

  /** A torn write does not only make the file unreadable: what is added later, successfully, may
      make it readable again, with records that nobody wrote and without one that was. Here the
      write of `x` stops behind its length; that of `y`, an entry ending in four zero bytes, is
      whole. */
  lemma MisalignedLoad(x: Key, dx: seq<byte>, y: Key, dy: seq<byte>)
    requires |dx| == |dy| == EVENT_LENGTH
    requires dy[26..] == LE32(0)
    ensures var q := AddState(AddState(EMPTY, x, dx, DataFails(0)), y, dy, Added);
            && y in q.live
            && Load(q.file) == Ok(map[x := y + LE32(|dy|) + dy[..10]][dy[10..26] := []])
  {
    hide Load;
    var middle := y + LE32(|dy|) + dy[..10];
    LoadNothing();
    LoadRecord([], x, middle);
    LoadRecord([] + Record(x, middle), dy[10..26], []);
    MisalignedFile(x, dx, y, dy);
  }

  lemma MisalignedFile(x: Key, dx: seq<byte>, y: Key, dy: seq<byte>)
    requires |dx| == |dy| == EVENT_LENGTH
    requires dy[26..] == LE32(0)
    ensures var q := AddState(AddState(EMPTY, x, dx, DataFails(0)), y, dy, Added);
            && y in q.live
            && q.file == [] + Record(x, y + LE32(|dy|) + dy[..10]) + Record(dy[10..26], [])
  {
    hide QueueFrame, LE32;
    RecordBytes(y, dy);
    RecordBytes(x, y + LE32(|dy|) + dy[..10]);
    RecordBytes(dy[10..26], []);
    Regroup(x, LE32(|dx|), y, LE32(|dy|), dy);
  }

  lemma RecordBytes(id: Key, data: seq<byte>)
    requires |data| < UINT32_MODULUS
    ensures Record(id, data) == id + LE32(|data|) + data
  {
  }

  /** The same bytes, divided where a reader of the file divides them. */
  lemma Regroup(x: seq<byte>, n: seq<byte>, y: seq<byte>, m: seq<byte>, d: seq<byte>)
    requires |d| == 30
    ensures [] + (x + n + []) + (y + m + d) == [] + (x + n + (y + m + d[..10])) + (d[10..26] + d[26..] + [])
  {
    assert d == d[..10] + (d[10..26] + d[26..]);
    var t := d[10..26] + d[26..];
    assert y + m + d == (y + m + d[..10]) + t;
    assert x + n + ((y + m + d[..10]) + t) == (x + n + (y + m + d[..10])) + t;
  }

  lemma LoadNothing()
    ensures Load([]) == Ok(map[])
  {
  }

  lemma AckKeepsFaithful(q: Queue, id: Key, truncateOk: bool)
    requires Faithful(q)
    ensures Faithful(AckState(q, id, truncateOk))
    ensures AckState(q, id, truncateOk).live == q.live - {id}
  {
    LoadNothing();
    if |q.live| == 0 {
      assert q.live == map[];
    }
  }

  lemma OpenFaithful(file: seq<byte>)
    requires Load(file).Ok?
    ensures Open(file).Ok? && Faithful(Open(file).value)
  {
  }

  // ---- Every run -----------------------------------------------------------

  datatype Op = Add(id: Key, data: seq<byte>, io: AddIo) | Ack(id: Key, truncateOk: bool) | Reopen

  /** A queue together with the ids that may linger in the file without being live: acknowledged, or
      written by an `Add` that then failed, since the file was last truncated. */
  datatype History = History(queue: Queue, retired: set<Key>)

  function Apply(h: History, op: Op): History {
    match op
    case Add(id, data, io) =>
      if |data| >= UINT32_MODULUS then h
      else History(AddState(h.queue, id, data, io),
                   if AddOk(h.queue, id, io) || Left(id, data, io) == [] then h.retired
                   else h.retired + {id})
    case Ack(id, truncateOk) =>
      var q := AckState(h.queue, id, truncateOk);
      History(q, if q.file == [] then {} else h.retired + {id})
    case Reopen =>
      (match Open(h.queue.file)
       case Err(_) => h
       case Ok(q) => History(q, {}))
  }

  function Run(h: History, ops: seq<Op>): History
    decreases |ops|
  {
    if ops == [] then h else Run(Apply(h, ops[0]), ops[1..])
  }

  /** No write in the run stops in the middle of a record. */
  predicate RunUntorn(h: History, ops: seq<Op>)
    decreases |ops|
  {
    ops != [] ==>
      && (ops[0].Add? && |ops[0].data| < UINT32_MODULUS ==> Untorn(h.queue, ops[0].id, ops[0].data, ops[0].io))
      && RunUntorn(Apply(h, ops[0]), ops[1..])
  }

  /** Every call in the run succeeds. */
  predicate AllSucceed(ops: seq<Op>) {
    forall op <- ops :: (op.Add? ==> op.io == Added) && (op.Ack? ==> op.truncateOk)
  }

  ghost predicate Agrees(h: History) {
    && Faithful(h.queue)
    && Load(h.queue.file).value.Keys <= h.queue.live.Keys + h.retired
  }

  /** A key is retired by its acknowledgement, or by an `Add` of it that failed after writing something;
      and no key is when the file has been emptied. */
  lemma RetiredOnly(h: History, op: Op, k: Key)
    ensures var t := Apply(h, op);
            && (k in t.retired ==>
                  || k in h.retired
                  || (op.Ack? && op.id == k)
                  || (op.Add? && op.id == k && op.io != Added && k !in h.queue.live && t.queue.file != h.queue.file))
            && (op.Ack? && t.queue.file == [] ==> t.retired == {})
            && (op.Reopen? && Load(h.queue.file).Ok? ==> t.retired == {})
  {
    hide Left, Load;
    if op.Add? && |op.data| < UINT32_MODULUS && op.io == SeekFails { SeekLeaves(op.id, op.data); }
  }

  lemma OpKeepsAgrees(h: History, op: Op)
    requires Agrees(h)
    requires op.Add? && |op.data| < UINT32_MODULUS ==> Untorn(h.queue, op.id, op.data, op.io)
    ensures Agrees(Apply(h, op))
  {
    match op {
      case Add(id, data, io) =>
        if |data| < UINT32_MODULUS {
          AddReload(h.queue, id, data, io);
        }
      case Ack(id, truncateOk) =>
        AckKeepsFaithful(h.queue, id, truncateOk);
        LoadNothing();
      case Reopen => OpenFaithful(h.queue.file);
    }
  }

  lemma {:induction false} RunKeepsAgrees(h: History, ops: seq<Op>)
    requires Agrees(h) && RunUntorn(h, ops)
    ensures Agrees(Run(h, ops))
    decreases |ops|
  {
    if ops != [] {
      OpKeepsAgrees(h, ops[0]);
      RunKeepsAgrees(Apply(h, ops[0]), ops[1..]);
    }
  }

  predicate Tidy(q: Queue) {
    |q.live| == 0 ==> q.file == []
  }

  lemma {:induction false} LatestNonempty(fs: seq<Frame>)
    requires AllWellFormed(QueueRecord, fs) && fs != []
    ensures |Latest(fs)| > 0
  {
    assert IdOf(fs[|fs| - 1]) in Latest(fs);
  }

  lemma LoadSomething(b: seq<byte>)
    requires b != [] && Load(b).Ok?
    ensures Load(b).value.Values != {}
  {
    var s := ScanAll(QueueRecord, b);
    ScanSplits(QueueRecord, b);
    LatestNonempty(s.frames);
    var k :| k in Load(b).value;
    assert Load(b).value[k] in Load(b).value.Values;
  }

  lemma OpKeepsTidy(h: History, op: Op)
    requires Tidy(h.queue)
    requires (op.Add? ==> op.io == Added) && (op.Ack? ==> op.truncateOk)
    ensures Tidy(Apply(h, op).queue)
    ensures op.Add? && |op.data| < UINT32_MODULUS ==> Untorn(h.queue, op.id, op.data, op.io)
  {
    match op {
      case Add(id, data, io) =>
        if |data| < UINT32_MODULUS && id !in h.queue.live {
          assert id in AddState(h.queue, id, data, io).live;
        }
      case Ack(_, _) =>
      case Reopen =>
        var s := ScanAll(QueueRecord, h.queue.file);
        ScanSplits(QueueRecord, h.queue.file);
        if s.end == AtBoundary && s.frames != [] {
          LatestNonempty(s.frames);
        }
    }
  }

  lemma {:induction false} SuccessKeepsTidy(h: History, ops: seq<Op>)
    requires Tidy(h.queue) && AllSucceed(ops)
    ensures Tidy(Run(h, ops).queue) && RunUntorn(h, ops)
    decreases |ops|
  {
    if ops != [] {
      assert ops[0] in ops;
      OpKeepsTidy(h, ops[0]);
      SuccessKeepsTidy(Apply(h, ops[0]), ops[1..]);
    }
  }

  /** After any run of additions, acknowledgements and restarts in which no write is torn, reloading
      the file gives every live key with its exact data, and any other key it gives was retired
      since the last truncation. */
  lemma ReloadAgrees(ops: seq<Op>)
    requires RunUntorn(History(EMPTY, {}), ops)
    ensures var h := Run(History(EMPTY, {}), ops);
            && Load(h.queue.file).Ok?
            && (forall k <- h.queue.live ::
                  k in Load(h.queue.file).value && Load(h.queue.file).value[k] == h.queue.live[k])
            && (forall k <- Load(h.queue.file).value :: k in h.queue.live || k in h.retired)
  {
    LoadNothing();
    RunKeepsAgrees(History(EMPTY, {}), ops);
  }

  /** When every call succeeds, an empty queue has an empty file, so nothing is left to come back. */
  lemma EmptyQueueEmptyFile(ops: seq<Op>)
    requires AllSucceed(ops)
    ensures var q := Run(History(EMPTY, {}), ops).queue;
            RunUntorn(History(EMPTY, {}), ops) && (|q.live| == 0 <==> q.file == [])
  {
    SuccessKeepsTidy(History(EMPTY, {}), ops);
    ReloadAgrees(ops);
    LoadNothing();
  }
}
