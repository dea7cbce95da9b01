/** An open file or the receiving end of a connection: bytes and a position. The outcome of each
    call to the operating system is a parameter. */
module Files {
  import opened Wrappers
  import opened Bytes

  /** Result of io.ReadFull. */
  datatype Read = Full(data: seq<byte>) | Eof | UnexpectedEof

  function ReadFullFrom(b: seq<byte>, n: nat): Read {
    if n <= |b| then Full(b[..n])
    else if b == [] then Eof
    else UnexpectedEof
  }

  function Min(x: nat, y: nat): nat {
    if x < y then x else y
  }

  /** Bytes that reach the file: all of them, or the first few of a write that fails. */
  function Written(buf: seq<byte>, fault: Option<nat>): (w: seq<byte>)
    ensures fault.None? ==> w == buf
  {
    match fault
    case None => buf
    case Some(n) => buf[..Min(n, |buf|)]
  }

  class File {
    var content: seq<byte>
    var offset: nat

    constructor (bytes: seq<byte>)
      ensures content == bytes && offset == 0
    {
      content, offset := bytes, 0;
    }

    method ReadFull(n: nat) returns (r: Read)
      requires offset <= |content|
      modifies this
      ensures content == old(content) && offset <= |content|
      ensures r == ReadFullFrom(old(content[offset..]), n)
      ensures r.Full? ==> offset == old(offset) + n
      ensures !r.Full? ==> offset == |content|
    {
      if offset + n <= |content| {
        r := Full(content[offset..offset + n]);
        assert content[offset..offset + n] == content[offset..][..n];
        offset := offset + n;
      } else {
        r := if offset == |content| then Eof else UnexpectedEof;
        offset := |content|;
      }
    }

    /** Writes at the end of the file, the only place this code writes. */
    method Write(buf: seq<byte>, fault: Option<nat>) returns (ok: bool)
      requires offset == |content|
      modifies this
      ensures content == old(content) + Written(buf, fault) && offset == |content|
      ensures ok == fault.None?
    {
      content := content + Written(buf, fault);
      offset := |content|;
      ok := fault.None?;
    }

    method Truncate(size: nat)
      requires size <= |content|
      modifies this
      ensures content == old(content)[..size] && offset == old(offset)
    {
      content := content[..size];
    }

    method Seek(pos: nat)
      requires pos <= |content|
      modifies this
      ensures content == old(content) && offset == pos
    {
      offset := pos;
    }
  }
}
