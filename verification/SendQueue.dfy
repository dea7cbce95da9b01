/** The send queue object of client/internal/game/send_queue.go, proved against QueueState. */
module SendQueue {
  import opened Wrappers
  import opened Bytes
  import opened WalEntry
  import opened Sequences
  import opened Framing
  import opened Files
  import opened QueueState

  class SendQueue {
    const file: File
    var entries: Live

    ghost function View(): Queue
      reads this, file
    {
      Queue(file.content, file.offset, entries)
    }

    constructor (file: File)
      ensures this.file == file && entries == map[]
    {
      this.file, this.entries := file, map[];
    }

    static method OpenSendQueue(file: File) returns (r: Result<SendQueue, LoadError>)
      requires file.offset == 0
      modifies file
      ensures file.content == old(file.content)
      ensures match Open(file.content)
              case Err(x) => r == Err(x)
              case Ok(q) => r.Ok? && fresh(r.value) && r.value.file == file && r.value.View() == q
    {
      var sq := new SendQueue(file);
      var ok := sq.ReadAll();
      r := if ok then Ok(sq) else Err(Torn);
    }

    /** One turn of the reading loop: id, length and data. */
    method ReadRecord() returns (r: Head)
      requires file.offset <= |file.content|
      modifies file
      ensures file.content == old(file.content)
      ensures old(file.offset) <= file.offset <= |file.content|
      ensures First(QueueRecord, old(file.content[file.offset..])).Cut? <==> r.Cut?
      ensures r.Cut? ==> (r.end == AtBoundary <==> old(file.offset) == |file.content|)
      ensures r.Head? ==>
                && First(QueueRecord, old(file.content[file.offset..])) == r
                && file.content[file.offset..] == old(file.content[file.offset..])[|FrameBytes(r.frame)|..]
                && old(file.offset) < file.offset
    {
      ghost var b := file.content[file.offset..];
      var id := file.ReadFull(16);
      if !id.Full? {
        return Cut(if id.Eof? then AtBoundary else InHeader);
      }
      assert file.content[file.offset..] == b[16..];
      var lengthBuf := file.ReadFull(4);
      if !lengthBuf.Full? {
        return Cut(InHeader);
      }
      assert b[..20][16..20] == lengthBuf.data;
      assert b[..20] == id.data + lengthBuf.data;
      assert file.content[file.offset..] == b[20..];
      var length := FromLE32(lengthBuf.data);
      var data := file.ReadFull(length);
      if !data.Full? {
        return Cut(InPayload);
      }
      assert b[20..20 + length] == data.data;
      assert file.content[file.offset..] == b[20 + length..];
      return Head(Frame(id.data + lengthBuf.data, data.data));
    }

    /** The reading loop of `loadSendQueue`: a later record of the same id replaces an earlier one. */
    method ReadAll() returns (ok: bool)
      requires file.offset == 0 && entries == map[]
      modifies this, file
      ensures file.content == old(file.content)
      ensures ok == Load(file.content).Ok?
      ensures ok ==> Open(file.content) == Ok(View())
    {
      ghost var b := file.content;
      ghost var done: seq<Frame> := [];
      assert b[0..] == b;
      ReadStart(QueueRecord, b);
      while true
        invariant file.content == b && file.offset <= |b|
        invariant ReadSoFar(QueueRecord, b, done, b[file.offset..])
        invariant entries == Latest(done)
        decreases |b| - file.offset
      {
        ghost var rest := b[file.offset..];
        var r := ReadRecord();
        match r {
          case Cut(end) =>
            ReadEnd(QueueRecord, b, done, rest);
            return end == AtBoundary;
          case Head(f) =>
            ReadTurn(QueueRecord, b, done, rest);
            assert (done + [f])[..|done|] == done;
            done := done + [f];
            entries := entries[IdOf(f) := f.payload];
        }
      }
    }

    /** The three writes of `Add`. What has reached the file stays there when one of them fails. */
    method WriteRecord(id: Key, data: seq<byte>, io: AddIo) returns (ok: bool)
      requires |data| < UINT32_MODULUS && !io.SeekFails?
      requires file.offset == |file.content|
      modifies file
      ensures file.content == old(file.content) + Left(id, data, io) && file.offset == |file.content|
      ensures ok == (io == Added)
    {
      ghost var before := file.content;
      ok := file.Write(id, if io.IdFails? then Some(io.n) else None);
      if !ok {
        return;
      }
      ok := file.Write(LE32(|data|), if io.LengthFails? then Some(io.n) else None);
      Associative(before, id, Written(LE32(|data|), if io.LengthFails? then Some(io.n) else None));
      if !ok {
        return;
      }
      ok := file.Write(data, if io.DataFails? then Some(io.n) else None);
      Associative(before, id + LE32(|data|), Written(data, if io.DataFails? then Some(io.n) else None));
      ok := ok && !io.SyncFails?;
    }

    method Add(id: Key, data: seq<byte>, io: AddIo) returns (ok: bool)
      requires |data| < UINT32_MODULUS
      modifies this, file
      ensures View() == AddState(old(View()), id, data, io)
      ensures ok == AddOk(old(View()), id, io)
    {
      if id in entries {
        return true;
      }
      if io.SeekFails? {
        return false;
      }
      file.Seek(|file.content|);
      ok := WriteRecord(id, data, io);
      if ok {
        entries := entries[id := data];
      }
    }

    method Ack(id: Key, truncateOk: bool)
      modifies this, file
      ensures View() == AckState(old(View()), id, truncateOk)
    {
      if |entries| == 0 {
        return;
      }
      entries := entries - {id};
      if |entries| == 0 {
        if truncateOk {
          file.Truncate(0);
          file.Seek(0);
        }
      }
    }

    /** Every live entry once, in no particular order. */
    method Pending() returns (pending: seq<seq<byte>>, ghost order: seq<Key>)
      ensures |pending| == |entries| && forall d :: d in pending <==> d in entries.Values
      ensures |pending| == |order| && (set id <- order) == entries.Keys
      ensures forall i, j :: 0 <= i < j < |order| ==> order[i] != order[j]
      ensures forall i :: 0 <= i < |order| ==> order[i] in entries && pending[i] == entries[order[i]]
    {
      pending, order := [], [];
      var rest := entries.Keys;
      while rest != {}
        invariant rest <= entries.Keys
        invariant |pending| == |order| == |entries| - |rest|
        invariant forall id :: id in order <==> id in entries && id !in rest
        invariant forall i, j :: 0 <= i < j < |order| ==> order[i] != order[j]
        invariant forall i :: 0 <= i < |order| ==> order[i] in entries && pending[i] == entries[order[i]]
        decreases rest
      {
        var id :| id in rest;
        rest := rest - {id};
        pending, order := pending + [entries[id]], order + [id];
      }
      forall d ensures d in pending <==> d in entries.Values {
        if d in entries.Values {
          var id :| id in entries && entries[id] == d;
          var i :| 0 <= i < |order| && order[i] == id;
          assert pending[i] == d;
        }
      }
    }
  }
}
