/** The WAL object of shared/wal/wal.go: an open file, the in-memory log read from it, and the key
    set that deduplicates it. Every method is proved against the specification in WalState. */
module Wal {
  import opened Wrappers
  import opened Bytes
  import opened WalEntry
  import opened Framing
  import opened Files
  import opened WalState

  class WAL {
    const file: File
    var keys: set<Key>
    var entries: seq<Entry>
    var count: uint32
    var notify: nat

    ghost function View(): State
      reads this, file
    {
      State(file.content, file.offset, entries, keys, count, notify)
    }

    ghost predicate Valid()
      reads this, file
    {
      Sound(View())
    }

    constructor (file: File)
      ensures this.file == file
      ensures keys == {} && entries == [] && count == 0 && notify == 0
    {
      this.file := file;
      keys, entries, count, notify := {}, [], 0, 0;
    }

    /** Opening succeeds exactly when the file loads, and then holds what the file holds. */
    static method OpenWAL(file: File) returns (r: Result<WAL, LoadError>)
      requires file.offset == 0
      modifies file
      ensures file.content == old(file.content)
      ensures match Open(file.content)
              case Err(x) => r == Err(x)
              case Ok(s) =>
                r.Ok? && fresh(r.value) && r.value.file == file && r.value.View() == s && r.value.Valid()
    {
      var wal := new WAL(file);
      var failure := wal.ReadAll();
      match failure {
        case Some(x) => r := Err(x);
        case None =>
          OpenSound(file.content);
          r := Ok(wal);
      }
    }

    /** One turn of the reading loop of `load`: the next entry, or the end of the file, or an error. */
    method ReadRecord() returns (r: Result<Option<Entry>, LoadError>)
      requires file.offset <= |file.content|
      modifies file
      ensures file.content == old(file.content)
      ensures old(file.offset) <= file.offset <= |file.content|
      ensures match r
              case Err(x) => Load(old(file.content[file.offset..])) == Err(x)
              case Ok(None) => Load(old(file.content[file.offset..])) == Ok([]) && file.offset == |file.content|
              case Ok(Some(e)) =>
                && Known(e)
                && old(file.offset) < file.offset
                && Load(old(file.content[file.offset..])) == Prepend([e], Load(file.content[file.offset..]))
    {
      ghost var rest := file.content[file.offset..];
      LoadUnfold(rest);
      var lengthBuf := file.ReadFull(4);
      if lengthBuf.Eof? {
        return Ok(None);
      }
      if lengthBuf.UnexpectedEof? {
        return Err(ReadLength);
      }
      var length := FromLE32(lengthBuf.data);
      assert file.content[file.offset..] == rest[4..];
      var data := file.ReadFull(length);
      if !data.Full? {
        return Err(ReadData);
      }
      assert rest[4..4 + length] == data.data;
      assert rest[4 + length..] == file.content[file.offset..];
      match Parse(data.data) {
        case Err(_) => return Err(BadRecord);
        case Ok(entry) => return Ok(Some(entry));
      }
    }

    /** Adds an entry to the in-memory set and list. */
    method Remember(e: Entry)
      requires Known(e)
      modifies this
      ensures notify == old(notify)
      ensures entries == old(entries) + [e]
      ensures keys == old(keys) + {KeyOf(e)}
      ensures count == Add32(old(count), 1)
      ensures old(keys) == KeySet(old(entries)) ==> keys == KeySet(entries)
      ensures old(count) == |old(entries)| % UINT32_MODULUS ==> count == |entries| % UINT32_MODULUS
    {
      KeySetSnoc(entries, e);
      CountSnoc(|entries|);
      keys := keys + {KeyOf(e)};
      entries := entries + [e];
      count := Add32(count, 1);
    }

    /** The reading loop of `load`. */
    method ReadAll() returns (failure: Option<LoadError>)
      requires file.offset == 0
      requires keys == {} && entries == [] && count == 0 && notify == 0
      modifies this, file
      ensures file.content == old(file.content)
      ensures failure == match Load(file.content) case Err(x) => Some(x) case Ok(_) => None
      ensures failure.None? ==> Open(file.content) == Ok(View())
    {
      ghost var b := file.content;
      assert b[0..] == b;
      PrependNothing(Load(b));
      while true
        invariant file.content == b && file.offset <= |b| && notify == 0
        invariant keys == KeySet(entries)
        invariant count == |entries| % UINT32_MODULUS
        invariant Load(b) == Prepend(entries, Load(b[file.offset..]))
        decreases |b| - file.offset
      {
        var r := ReadRecord();
        match r {
          case Err(x) => return Some(x);
          case Ok(None) =>
            assert entries + [] == entries;
            return None;
          case Ok(Some(entry)) =>
            PrependTwice(entries, [entry], Load(b[file.offset..]));
            Remember(entry);
        }
      }
    }

    /** The file part of `Append`: length, data, sync. Each call may fail part way; the file is then
        cut back to where it was. */
    method WriteRecord(data: seq<byte>, io: AppendIo) returns (ok: bool)
      requires file.offset == |file.content| && |data| < UINT32_MODULUS
      modifies file
      ensures ok == (io == Done)
      ensures ok ==> file.content == old(file.content) + FrameBytes(LengthPrefixed(data))
      ensures !ok ==> file.content == old(file.content)
      ensures file.offset == |file.content|
    {
      if io.SeekFails? {
        return false;
      }
      var pos := file.offset;
      ok := file.Write(LE32(|data|), if io.LengthFails? then Some(io.n) else None);
      if !ok {
        file.Truncate(pos);
        file.Seek(pos);
        return;
      }
      ok := file.Write(data, if io.DataFails? then Some(io.n) else None);
      if !ok {
        file.Truncate(pos);
        file.Seek(pos);
        return;
      }
      if io.SyncFails? {
        file.Truncate(pos);
        file.Seek(pos);
        ok := false;
      }
    }

    /** Appends unless the key is already there; on failure nothing has changed. */
    method Append(e: Entry, io: AppendIo) returns (r: Result<(), AppendError>)
      requires Valid()
      modifies this, file
      ensures Valid()
      ensures View() == AppendState(old(View()), e, io)
      ensures r == AppendResult(old(View()), e, io)
    {
      AppendKeepsSound(View(), e, io);
      if !Known(e) {
        return Err(BadEntry);
      }
      var data := Serialize(e).value;
      assert data == Payload(e);
      if KeyOf(e) in keys {
        return Ok(());
      }
      var ok := WriteRecord(data, io);
      if !ok {
        return Err(IoFailed);
      }
      Remember(e);
      notify := notify + 1;
      return Ok(());
    }

    method Get(index: uint32) returns (r: Option<Entry>)
      requires Valid()
      ensures r == WalState.Get(View(), index)
    {
      if index >= count {
        return None;
      }
      return Some(entries[index]);
    }
  }

  /** One turn of the reading loop. */
  lemma LoadUnfold(b: seq<byte>)
    ensures b == [] ==> Load(b) == Ok([])
    ensures 0 < |b| < 4 ==> Load(b) == Err(ReadLength)
    ensures |b| >= 4 && |b| < 4 + FromLE32(b[..4]) ==> Load(b) == Err(ReadData)
    ensures |b| >= 4 && |b| >= 4 + FromLE32(b[..4]) ==>
              var n := FromLE32(b[..4]);
              match Parse(b[4..4 + n])
              case Err(_) => Load(b) == Err(BadRecord)
              case Ok(e) => Load(b) == Prepend([e], Load(b[4 + n..]))
  {
    if |b| >= 4 && |b| >= 4 + FromLE32(b[..4]) {
      var n := FromLE32(b[..4]);
      var s := ScanAll(WalRecord, b);
      assert s.frames[1..] == ScanAll(WalRecord, b[4 + n..]).frames;
    }
  }
}
