/** What a WAL is and what its operations do to it: the value-level specification of
    shared/wal/wal.go, and the theory of its file format. */
module WalState {
  import opened Wrappers
  import opened Bytes
  import opened WalEntry
  import opened Framing
  import opened Sequences

  datatype LoadError = ReadLength | ReadData | BadRecord

  // ---- The file ------------------------------------------------------------

  function LengthPrefixed(data: seq<byte>): (f: Frame)
    requires |data| < UINT32_MODULUS
    ensures WellFormed(WalRecord, f)
  {
    LE32Inverse(|data|);
    Frame(LE32(|data|), data)
  }

  function Payload(e: Entry): (d: seq<byte>)
    requires Known(e)
    ensures |d| <= ITEM_LENGTH && Serialize(e) == Ok(d)
  {
    Serialize(e).value
  }

  function RecordFrame(e: Entry): (f: Frame)
    requires Known(e)
    ensures WellFormed(WalRecord, f)
  {
    LengthPrefixed(Payload(e))
  }

  function RecordFrames(es: seq<Entry>): (fs: seq<Frame>)
    requires AllKnown(es)
    ensures |fs| == |es| && AllWellFormed(WalRecord, fs)
    ensures forall i :: 0 <= i < |es| ==> fs[i] == RecordFrame(es[i])
  {
    seq(|es|, i requires 0 <= i < |es| => RecordFrame(es[i]))
  }

  function Record(e: Entry): seq<byte>
    requires Known(e)
  {
    FrameBytes(RecordFrame(e))
  }

  function Prepend(es: seq<Entry>, r: Result<seq<Entry>, LoadError>): Result<seq<Entry>, LoadError> {
    if r.Ok? then Ok(es + r.value) else r
  }

  /** The entries of a sequence of records, or the error of the first one that is bad, or that of
      the cut that ends them. */
  function LoadFrames(fs: seq<Frame>, end: End): Result<seq<Entry>, LoadError> {
    if fs == [] then
      match end
      case AtBoundary => Ok([])
      case InHeader => Err(ReadLength)
      case _ => Err(ReadData)
    else
      match Parse(fs[0].payload)
      case Err(_) => Err(BadRecord)
      case Ok(e) => Prepend([e], LoadFrames(fs[1..], end))
  }

  function Load(b: seq<byte>): Result<seq<Entry>, LoadError> {
    var s := ScanAll(WalRecord, b);
    LoadFrames(s.frames, s.end)
  }

  // ---- The state -----------------------------------------------------------

  predicate AllKnown(es: seq<Entry>) {
    forall e <- es :: Known(e)
  }

  predicate AllNormal(es: seq<Entry>) {
    forall e <- es :: IsNormal(e)
  }

  function NormalAll(es: seq<Entry>): (ns: seq<Entry>)
    ensures |ns| == |es| && forall i :: 0 <= i < |es| ==> ns[i] == Normal(es[i])
  {
    seq(|es|, i requires 0 <= i < |es| => Normal(es[i]))
  }

  function KeySet(es: seq<Entry>): set<Key> {
    set e | e in es && Known(e) :: KeyOf(e)
  }

  predicate NoRepeats(es: seq<Entry>)
    requires AllKnown(es)
  {
    forall i, j :: 0 <= i < j < |es| ==> KeyOf(es[i]) != KeyOf(es[j])
  }

  /** `notify` numbers the channels made by the WAL: channel `ch` is closed iff `ch < notify`. */
  datatype State = State(file: seq<byte>, offset: nat, entries: seq<Entry>, keys: set<Key>,
                         count: uint32, notify: nat)

  /** The representation invariant. */
  predicate Sound(s: State) {
    && AllKnown(s.entries)
    && Load(s.file) == Ok(NormalAll(s.entries))
    && s.offset == |s.file|
    && s.keys == KeySet(s.entries)
    && s.count == |s.entries| % UINT32_MODULUS
  }

  /** A file written by nothing but `Append`. */
  predicate Written(s: State) {
    && Sound(s)
    && NoRepeats(s.entries)
    && s.file == Join(RecordFrames(s.entries))
  }

  // ---- The operations ------------------------------------------------------

  function Open(file: seq<byte>): Result<State, LoadError> {
    match Load(file)
    case Err(x) => Err(x)
    case Ok(es) => Ok(State(file, |file|, es, KeySet(es), |es| % UINT32_MODULUS, 0))
  }

  /** How far `Append` gets with the file: which call fails, after how many of its bytes. */
  datatype AppendIo = Done | SeekFails | LengthFails(n: nat) | DataFails(n: nat) | SyncFails

  datatype AppendError = BadEntry | IoFailed

  predicate Appends(s: State, e: Entry, io: AppendIo) {
    Known(e) && KeyOf(e) !in s.keys && io == Done
  }

  function Appended(s: State, e: Entry): State
    requires Known(e)
  {
    State(s.file + Record(e), s.offset + |Record(e)|, s.entries + [e], s.keys + {KeyOf(e)},
          Add32(s.count, 1), s.notify + 1)
  }

  function AppendState(s: State, e: Entry, io: AppendIo): State {
    if Appends(s, e, io) then Appended(s, e) else s
  }

  function AppendResult(s: State, e: Entry, io: AppendIo): Result<(), AppendError> {
    if !Known(e) then Err(BadEntry)
    else if KeyOf(e) in s.keys || io == Done then Ok(())
    else Err(IoFailed)
  }

  function Get(s: State, index: uint32): Option<Entry> {
    if index >= s.count || index >= |s.entries| then None else Some(s.entries[index])
  }

  // ---- The file format -----------------------------------------------------

  lemma PrependTwice(xs: seq<Entry>, ys: seq<Entry>, r: Result<seq<Entry>, LoadError>)
    ensures Prepend(xs, Prepend(ys, r)) == Prepend(xs + ys, r)
  {
    if r.Ok? {
      Associative(xs, ys, r.value);
    }
  }

  lemma PrependNothing(r: Result<seq<Entry>, LoadError>)
    ensures Prepend([], r) == r
  {
    if r.Ok? {
      assert [] + r.value == r.value;
    }
  }

  predicate AllParse(fs: seq<Frame>) {
    forall i :: 0 <= i < |fs| ==> Parse(fs[i].payload).Ok?
  }

  function ParsedAll(fs: seq<Frame>): (es: seq<Entry>)
    requires AllParse(fs)
    ensures |es| == |fs| && forall i :: 0 <= i < |fs| ==> es[i] == Parse(fs[i].payload).value
  {
    seq(|fs|, i requires 0 <= i < |fs| => Parse(fs[i].payload).value)
  }

  lemma ParsedPrefix(fs: seq<Frame>, m: nat)
    requires AllParse(fs) && m <= |fs|
    ensures AllParse(fs[..m]) && ParsedAll(fs[..m]) == ParsedAll(fs)[..m]
  {
  }

  lemma ParsedSnoc(fs: seq<Frame>, f: Frame)
    requires AllParse(fs) && Parse(f.payload).Ok?
    ensures AllParse(fs + [f]) && ParsedAll(fs + [f]) == ParsedAll(fs) + [Parse(f.payload).value]
  {
  }

  lemma {:induction false} LoadFramesOk(fs: seq<Frame>, end: End)
    ensures LoadFrames(fs, end).Ok? <==> end == AtBoundary && AllParse(fs)
    ensures LoadFrames(fs, end).Ok? ==> LoadFrames(fs, end).value == ParsedAll(fs)
  {
    if fs != [] {
      LoadFramesOk(fs[1..], end);
      assert forall i :: 0 < i < |fs| ==> fs[i] == fs[1..][i - 1];
    }
  }

  predicate AllPayloads(ds: seq<seq<byte>>) {
    forall i :: 0 <= i < |ds| ==> |ds[i]| < UINT32_MODULUS && Parse(ds[i]).Ok?
  }

  function PayloadFrames(ds: seq<seq<byte>>): (fs: seq<Frame>)
    requires AllPayloads(ds)
    ensures |fs| == |ds| && AllWellFormed(WalRecord, fs)
    ensures forall i :: 0 <= i < |ds| ==> fs[i] == LengthPrefixed(ds[i]) && fs[i].payload == ds[i]
  {
    seq(|ds|, i requires 0 <= i < |ds| => LengthPrefixed(ds[i]))
  }

  /** A byte string that is the concatenation of these length-prefixed payloads, each a valid entry.
      This is the reference reading of the file format, with no reader in it. */
  predicate IsLog(b: seq<byte>, ds: seq<seq<byte>>) {
    AllPayloads(ds) && b == Join(PayloadFrames(ds))
  }

  function Payloads(fs: seq<Frame>): (ds: seq<seq<byte>>)
    ensures |ds| == |fs| && forall i :: 0 <= i < |fs| ==> ds[i] == fs[i].payload
  {
    seq(|fs|, i requires 0 <= i < |fs| => fs[i].payload)
  }

  lemma FrameFromPayload(f: Frame)
    requires WellFormed(WalRecord, f)
    ensures |f.payload| < UINT32_MODULUS && LengthPrefixed(f.payload) == f
  {
    LE32Onto(f.header);
  }

  /** `load` accepts a byte string exactly when it is a log ... */
  lemma LoadAccepts(b: seq<byte>)
    ensures Load(b).Ok? <==> exists ds :: IsLog(b, ds)
  {
    var s := ScanAll(WalRecord, b);
    if Load(b).Ok? {
      LoadFramesOk(s.frames, s.end);
      ScanSplits(WalRecord, b);
      forall i | 0 <= i < |s.frames|
        ensures |s.frames[i].payload| < UINT32_MODULUS && LengthPrefixed(s.frames[i].payload) == s.frames[i]
      {
        FrameFromPayload(s.frames[i]);
      }
      assert PayloadFrames(Payloads(s.frames)) == s.frames;
      assert IsLog(b, Payloads(s.frames));
    }
    if ds :| IsLog(b, ds) {
      LoadReturns(b, ds);
    }
  }

  /** ... it is one in only one way, and `load` returns its entries in order. */
  lemma LoadReturns(b: seq<byte>, ds: seq<seq<byte>>)
    requires IsLog(b, ds)
    ensures Load(b).Ok? && |Load(b).value| == |ds|
    ensures forall i :: 0 <= i < |ds| ==> Load(b).value[i] == Parse(ds[i]).value
  {
    ScanExact(WalRecord, PayloadFrames(ds));
    LoadFramesOk(PayloadFrames(ds), AtBoundary);
  }

  lemma LogUnique(b: seq<byte>, ds: seq<seq<byte>>, ds': seq<seq<byte>>)
    requires IsLog(b, ds) && IsLog(b, ds')
    ensures ds == ds'
  {
    SplitUnique(WalRecord, PayloadFrames(ds), PayloadFrames(ds'));
    assert Payloads(PayloadFrames(ds)) == ds && Payloads(PayloadFrames(ds')) == ds';
  }

  /** A loadable file cut anywhere loads iff the cut is at a record boundary, and then returns
      exactly the entries before the cut: a torn record is rejected, never dropped. */
  lemma LoadCut(b: seq<byte>, n: nat)
    requires Load(b).Ok? && n <= |b|
    ensures var fs := ScanAll(WalRecord, b).frames;
            var m := WholeFrames(fs, n);
            && |fs| == |Load(b).value|
            && (Load(b[..n]).Ok? <==> n == |Join(fs[..m])|)
            && (Load(b[..n]).Ok? ==> Load(b[..n]).value == Load(b).value[..m])
  {
    var s := ScanAll(WalRecord, b);
    ScanSplits(WalRecord, b);
    LoadFramesOk(s.frames, s.end);
    var m := WholeFrames(s.frames, n);
    ScanCut(WalRecord, s.frames, n);
    ParsedPrefix(s.frames, m);
    LoadFramesOk(s.frames[..m], ScanAll(WalRecord, b[..n]).end);
  }

  // ---- Appending, tearing, reopening ---------------------------------------

  lemma LoadRecord(b: seq<byte>, e: Entry)
    requires Load(b).Ok? && Known(e)
    ensures Load(b + Record(e)) == Ok(Load(b).value + [Normal(e)])
  {
    var s := ScanAll(WalRecord, b);
    LoadFramesOk(s.frames, s.end);
    ScanSplits(WalRecord, b);
    var fs := s.frames + [RecordFrame(e)];
    assert ScanAll(WalRecord, b + Record(e)) == Scan(fs, AtBoundary) by {
      JoinSnoc(s.frames, RecordFrame(e));
      ScanExact(WalRecord, fs);
    }
    assert Parse(RecordFrame(e).payload) == Ok(Normal(e)) by { ParseSerializeExact(e); }
    ParsedSnoc(s.frames, RecordFrame(e));
    LoadFramesOk(fs, AtBoundary);
  }

  lemma LoadTorn(b: seq<byte>, e: Entry, n: nat)
    requires Load(b).Ok? && Known(e)
    requires 0 < n < |Record(e)|
    ensures Load(b + Record(e)[..n]).Err?
  {
    var s := ScanAll(WalRecord, b);
    LoadFramesOk(s.frames, s.end);
    ScanSplits(WalRecord, b);
    ScanJoin(WalRecord, s.frames, Record(e)[..n]);
    PartialFrame(WalRecord, RecordFrame(e), n);
    LoadFramesOk(s.frames + [], CutEnd(WalRecord, n));
  }

  lemma KeySetSnoc(es: seq<Entry>, e: Entry)
    requires Known(e)
    ensures KeySet(es + [e]) == KeySet(es) + {KeyOf(e)}
  {
    assert forall x :: x in es + [e] <==> x in es || x == e;
  }

  lemma NoRepeatsSnoc(es: seq<Entry>, e: Entry)
    requires AllKnown(es) && Known(e) && NoRepeats(es)
    requires KeyOf(e) !in KeySet(es)
    ensures AllKnown(es + [e]) && NoRepeats(es + [e])
  {
    forall i, j | 0 <= i < j < |es + [e]|
      ensures KeyOf((es + [e])[i]) != KeyOf((es + [e])[j])
    {
      assert es[i] in es;
    }
  }

  lemma NormalAllSnoc(es: seq<Entry>, e: Entry)
    ensures NormalAll(es + [e]) == NormalAll(es) + [Normal(e)]
  {
  }

  lemma CountSnoc(n: nat)
    ensures Add32(n % UINT32_MODULUS, 1) == (n + 1) % UINT32_MODULUS
  {
  }

  lemma AppendedSound(s: State, e: Entry)
    requires Sound(s) && Known(e)
    ensures Sound(Appended(s, e))
  {
    var t := Appended(s, e);
    assert Load(t.file) == Ok(NormalAll(t.entries)) by {
      LoadRecord(s.file, e);
      NormalAllSnoc(s.entries, e);
    }
    assert t.keys == KeySet(t.entries) by { KeySetSnoc(s.entries, e); }
    assert t.count == |t.entries| % UINT32_MODULUS by { CountSnoc(|s.entries|); }
  }

  /** Whatever happens to the file calls, `Append` keeps the representation invariant; on failure
      nothing changes at all. */
  lemma AppendKeepsSound(s: State, e: Entry, io: AppendIo)
    requires Sound(s)
    ensures Sound(AppendState(s, e, io))
    ensures AppendResult(s, e, io).Err? ==> AppendState(s, e, io) == s
    ensures AppendResult(s, e, io).Ok? ==> Known(e) && KeyOf(e) in AppendState(s, e, io).keys
    ensures s.entries <= AppendState(s, e, io).entries
  {
    if Appends(s, e, io) {
      AppendedSound(s, e);
    }
  }

  /** Each key enters the log at most once. */
  /** What an append answers, and what it does to the log: a duplicate succeeds without touching the
      file, whatever the file would have done. */
  lemma AppendOutcome(s: State, e: Entry, io: AppendIo)
    requires Sound(s)
    ensures var t, r, has := AppendState(s, e, io), AppendResult(s, e, io),
                             exists x :: x in s.entries && DedupKey(x) == DedupKey(e);
            && (r.Ok? <==> Known(e) && (has || io == Done))
            && (r.Err? ==> r.error == if Known(e) then IoFailed else BadEntry)
            && (Known(e) && !has && io == Done ==> t.entries == s.entries + [e] && t.file == s.file + Record(e))
            && (!Known(e) || has || io != Done ==> t == s)
  {
    if Known(e) {
      if x :| x in s.entries && DedupKey(x) == DedupKey(e) {
        assert Known(x) && KeyOf(x) == KeyOf(e);
      }
      if KeyOf(e) in s.keys {
        var x :| x in s.entries && Known(x) && KeyOf(x) == KeyOf(e);
        assert DedupKey(x) == DedupKey(e);
      }
    } else {
      forall x | x in s.entries ensures DedupKey(x) != DedupKey(e) {
        assert Known(x);
      }
    }
  }

  lemma AppendKeepsNoRepeats(s: State, e: Entry, io: AppendIo)
    requires Sound(s) && NoRepeats(s.entries)
    ensures var t := AppendState(s, e, io); AllKnown(t.entries) && NoRepeats(t.entries)
  {
    if Appends(s, e, io) {
      NoRepeatsSnoc(s.entries, e);
    }
  }

  lemma AppendKeepsWritten(s: State, e: Entry, io: AppendIo)
    requires Written(s)
    ensures Written(AppendState(s, e, io))
  {
    AppendKeepsSound(s, e, io);
    AppendKeepsNoRepeats(s, e, io);
    if Appends(s, e, io) {
      RecordFramesSnoc(s.entries, e);
    }
  }

  lemma RecordFramesSnoc(es: seq<Entry>, e: Entry)
    requires AllKnown(es) && Known(e)
    ensures AllKnown(es + [e])
    ensures Join(RecordFrames(es + [e])) == Join(RecordFrames(es)) + Record(e)
  {
    JoinSnoc(RecordFrames(es), RecordFrame(e));
    assert RecordFrames(es + [e]) == RecordFrames(es) + [RecordFrame(e)];
  }

  lemma NormalIdentity(es: seq<Entry>)
    requires AllNormal(es)
    ensures NormalAll(es) == es && AllKnown(es)
  {
    assert forall i :: 0 <= i < |es| ==> es[i] in es;
  }

  lemma LoadedNormal(b: seq<byte>)
    requires Load(b).Ok?
    ensures AllNormal(Load(b).value)
  {
    var s := ScanAll(WalRecord, b);
    LoadFramesOk(s.frames, s.end);
    forall i | 0 <= i < |s.frames| ensures IsNormal(Parse(s.frames[i].payload).value) {
      SerializeParse(s.frames[i].payload);
    }
  }

  /** Opening any loadable file establishes the invariant. */
  lemma OpenSound(file: seq<byte>)
    requires Load(file).Ok?
    ensures Open(file).Ok? && Sound(Open(file).value) && AllNormal(Open(file).value.entries)
  {
    LoadedNormal(file);
    NormalIdentity(Load(file).value);
  }

  /** Closing and reopening gives back the same log. */
  lemma ReopenSame(s: State)
    requires Sound(s) && AllNormal(s.entries)
    ensures Open(s.file) == Ok(s.(notify := 0))
  {
    NormalIdentity(s.entries);
  }

  /** A process that dies while appending leaves a prefix of the record behind. Opening then finds
      the log as it was, or with the new entry, or refuses; it never finds anything else. */
  lemma CrashOutcomes(s: State, e: Entry, n: nat)
    requires Sound(s) && AllNormal(s.entries) && IsNormal(e)
    requires n <= |Record(e)|
    ensures var r := Open(s.file + Record(e)[..n]);
            && (r.Ok? <==> n == 0 || n == |Record(e)|)
            && (n == 0 ==> r.value.entries == s.entries)
            && (n == |Record(e)| ==> r.value.entries == s.entries + [e])
  {
    NormalIdentity(s.entries);
    if n == 0 {
      assert s.file + Record(e)[..n] == s.file;
    } else if n == |Record(e)| {
      assert Record(e)[..n] == Record(e);
      LoadRecord(s.file, e);
    } else {
      LoadTorn(s.file, e, n);
    }
  }

  // ---- Every run of one log ------------------------------------------------

  datatype Op = Appending(e: Entry, io: AppendIo) | Reopen

  const EMPTY := State([], 0, [], {}, 0, 0)

  function Apply(s: State, op: Op): State {
    match op
    case Appending(e, io) => AppendState(s, e, io)
    case Reopen => if Open(s.file).Ok? then Open(s.file).value else s
  }

  function Run(s: State, ops: seq<Op>): State
    decreases |ops|
  {
    if ops == [] then s else Run(Apply(s, ops[0]), ops[1..])
  }

  lemma NormalRecords(es: seq<Entry>)
    requires AllKnown(es)
    ensures AllKnown(NormalAll(es)) && RecordFrames(NormalAll(es)) == RecordFrames(es)
    ensures NormalAll(NormalAll(es)) == NormalAll(es)
  {
    forall i | 0 <= i < |es| ensures Known(es[i]) && Known(NormalAll(es)[i])
                                     && RecordFrame(Normal(es[i])) == RecordFrame(es[i]) {
      assert es[i] in es;
    }
  }

  lemma NormalNoRepeats(es: seq<Entry>)
    requires AllKnown(es) && AllKnown(NormalAll(es)) && NoRepeats(es)
    ensures NoRepeats(NormalAll(es))
  {
    forall i | 0 <= i < |es| ensures Known(es[i]) && KeyOf(Normal(es[i])) == KeyOf(es[i]) {
      assert es[i] in es;
    }
  }

  /** What `Append` wrote opens again, and is still what `Append` would have written. */
  lemma ReopenKeepsWritten(s: State)
    requires Written(s)
    ensures Open(s.file).Ok? && Written(Open(s.file).value)
    ensures Open(s.file).value.entries == NormalAll(s.entries)
  {
    hide Load, RecordFrames, NormalAll;
    OpenSound(s.file);
    NormalRecords(s.entries);
    NormalNoRepeats(s.entries);
  }

  lemma OpKeepsWritten(s: State, op: Op)
    requires Written(s)
    ensures Written(Apply(s, op))
    ensures NormalAll(s.entries) <= NormalAll(Apply(s, op).entries)
  {
    hide Written;
    match op {
      case Appending(e, io) =>
        AppendKeepsWritten(s, e, io);
        NormalAllSnoc(s.entries, e);
      case Reopen =>
        ReopenKeepsWritten(s);
        assert AllKnown(s.entries) by { WrittenKnown(s); }
        NormalRecords(s.entries);
    }
  }

  lemma WrittenKnown(s: State)
    requires Written(s)
    ensures AllKnown(s.entries)
  {
  }

  lemma {:induction false} RunKeepsWritten(s: State, ops: seq<Op>)
    requires Written(s)
    ensures Written(Run(s, ops))
    ensures NormalAll(s.entries) <= NormalAll(Run(s, ops).entries)
    decreases |ops|
  {
    hide Written, NormalAll, Apply;
    if ops != [] {
      OpKeepsWritten(s, ops[0]);
      RunKeepsWritten(Apply(s, ops[0]), ops[1..]);
    }
  }

  /** Whatever is appended to a log that started empty, however often an append fails and however
      often the log is closed and opened again, its file is exactly its entries' records and no key
      is in it twice. */
  lemma AlwaysWritten(ops: seq<Op>)
    ensures Written(Run(EMPTY, ops))
  {
    assert KeySet([]) == {};
    RunKeepsWritten(EMPTY, ops);
  }
}
