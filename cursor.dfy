/** The two byte cursors of the save-game code (LoadHelper and SaveHelper in
    Source/loadsave.cpp) and the blob archive they read from and flush into.

    The functions on Reader and Writer values say what one cursor operation
    does; the classes are the cursors themselves, whose methods update the
    position (and, for SaveHelper, the buffer) in place and are proved to
    agree with those functions. */
module Cursor {
  import opened Wire

  // ---------------------------------------------------------------------
  // Reading

  /** A LoadHelper's state: whether a buffer was obtained (m_buffer != nullptr),
      its bytes (m_buffer[0 .. m_bufferLen)) and the position m_bufferPtr. */
  datatype Reader = Reader(present: bool, data: seq<byte>, ptr: nat)

  /** isValid(n): a buffer exists and n more bytes remain after the position. */
  predicate CanRead(r: Reader, n: nat)
  {
    r.present && r.ptr + n <= |r.data|
  }

  /** next<T>() followed by the LE or BE byte-order conversion: on success the
      value of the n bytes at the position, which advances by n; otherwise 0
      and the position stays where it was. */
  function ReadNum(r: Reader, order: Order, n: nat): (res: (nat, Reader))
    ensures CanRead(r, n) ==> res.1 == r.(ptr := r.ptr + n)
    ensures !CanRead(r, n) ==> res == (0, r)
    ensures res.0 < Pow256(n)
  {
    if CanRead(r, n) then
      DecodeBound(order, r.data[r.ptr..r.ptr + n]);
      (Decode(order, r.data[r.ptr..r.ptr + n]), r.(ptr := r.ptr + n))
    else
      (0, r)
  }

  /** nextBytes(dst, n): on success the n bytes at the position; otherwise the
      destination keeps its old contents and the position does not move. */
  function ReadBytes(r: Reader, n: nat, dst: seq<byte>): (res: (seq<byte>, Reader))
    ensures CanRead(r, n) ==> res == (r.data[r.ptr..r.ptr + n], r.(ptr := r.ptr + n))
    ensures !CanRead(r, n) ==> res == (dst, r)
  {
    if CanRead(r, n) then (r.data[r.ptr..r.ptr + n], r.(ptr := r.ptr + n)) else (dst, r)
  }

  /** skip(n) moves the position with no bounds check. */
  function SkipRead(r: Reader, n: nat): Reader
  {
    r.(ptr := r.ptr + n)
  }

  // ---------------------------------------------------------------------
  // Writing

  /** A SaveHelper's state: whether it still owns its buffer (m_buffer !=
      nullptr), the buffer's bytes, the position m_bufferPtr and the
      writable length m_bufferLen. The allocation may be longer than cap. */
  datatype Writer = Writer(live: bool, buf: seq<byte>, ptr: nat, cap: nat)

  predicate WriterOk(w: Writer)
  {
    w.cap <= |w.buf|
  }

  /** isValid(n) on the saving side. */
  predicate CanWrite(w: Writer, n: nat)
  {
    w.live && w.ptr + n <= w.cap
  }

  /** writeBytes: copies bs at the position and advances, or drops the write
      entirely (position unchanged) when it would pass m_bufferLen. */
  function WriteRaw(w: Writer, bs: seq<byte>): (w': Writer)
    requires WriterOk(w)
    ensures WriterOk(w') && |w'.buf| == |w.buf| && w'.cap == w.cap && w'.live == w.live
    ensures CanWrite(w, |bs|) ==> w'.ptr == w.ptr + |bs| && w'.buf[w.ptr..w.ptr + |bs|] == bs
    ensures CanWrite(w, |bs|) ==> w'.buf[..w.ptr] == w.buf[..w.ptr] && w'.buf[w.ptr + |bs|..] == w.buf[w.ptr + |bs|..]
    ensures !CanWrite(w, |bs|) ==> w' == w
  {
    if CanWrite(w, |bs|) then
      var b := w.buf[..w.ptr] + bs + w.buf[w.ptr + |bs|..];
      assert b[w.ptr..w.ptr + |bs|] == bs;
      assert b[..w.ptr] == w.buf[..w.ptr];
      assert b[w.ptr + |bs|..] == w.buf[w.ptr + |bs|..];
      w.(buf := b, ptr := w.ptr + |bs|)
    else
      w
  }

  /** writeLE<T>/writeBE<T>/writeByte: the value truncated to n bytes, in the
      given byte order. */
  function WriteNum(w: Writer, order: Order, n: nat, v: nat): (w': Writer)
    requires WriterOk(w)
    ensures WriterOk(w')
  {
    WriteRaw(w, Encode(order, v, n))
  }

  /** skip(n) on the saving side: the position moves, the skipped bytes keep
      whatever the buffer held. */
  function SkipWrite(w: Writer, n: nat): (w': Writer)
    ensures w'.buf == w.buf && w'.ptr == w.ptr + n
  {
    w.(ptr := w.ptr + n)
  }

  /** Writing a value and reading it back with the same width and byte order
      returns it, when it fits the width and the write was not dropped. */
  lemma {:induction false} WriteReadNum(w: Writer, order: Order, n: nat, v: nat)
    requires WriterOk(w) && CanWrite(w, n) && v < Pow256(n)
    ensures var w' := WriteNum(w, order, n, v);
            ReadNum(Reader(true, w'.buf, w.ptr), order, n) == (v, Reader(true, w'.buf, w.ptr + n))
  {
    var w' := WriteNum(w, order, n, v);
    RoundTrip(order, v, n);
    assert CanRead(Reader(true, w'.buf, w.ptr), n);
  }

  // ---------------------------------------------------------------------
  // The archive and the cursor classes

  /** The save archive as a map from blob names to their contents; pfile_read
      and pfile_write_save_file act on it. */
  class Archive {
    var files: map<string, seq<byte>>

    constructor (files: map<string, seq<byte>>)
      ensures this.files == files
    {
      this.files := files;
    }
  }

  class LoadHelper {
    const present: bool
    const data: seq<byte>
    var ptr: nat

    function State(): Reader
      reads this
    {
      Reader(present, data, ptr)
    }

    /** pfile_read(name): the blob's bytes, or no buffer when it is absent. */
    constructor (archive: Archive, name: string)
      ensures present == (name in archive.files)
      ensures present ==> data == archive.files[name]
      ensures ptr == 0
    {
      present := name in archive.files;
      data := if name in archive.files then archive.files[name] else [];
      ptr := 0;
    }

    method IsValid(size: nat) returns (ok: bool)
      ensures ok == (present && ptr + size <= |data|)
    {
      ok := present && ptr + size <= |data|;
    }

    method Skip(size: nat)
      modifies this
      ensures State() == SkipRead(old(State()), size)
      ensures ptr == old(ptr) + size
    {
      ptr := ptr + size;
    }

    method NextBytes(size: nat, dst: seq<byte>) returns (bytes: seq<byte>)
      modifies this
      ensures (bytes, State()) == ReadBytes(old(State()), size, dst)
      ensures old(present && ptr + size <= |data|) ==> bytes == data[old(ptr)..old(ptr) + size] && ptr == old(ptr) + size
      ensures !old(present && ptr + size <= |data|) ==> bytes == dst && ptr == old(ptr)
    {
      var ok := IsValid(size);
      if !ok {
        return dst;
      }
      bytes := data[ptr..ptr + size];
      ptr := ptr + size;
    }

    /** next<T>() with sizeof(T) == size, then SwapLE or SwapBE. */
    method Next(order: Order, size: nat) returns (v: nat)
      modifies this
      ensures (v, State()) == ReadNum(old(State()), order, size)
      ensures old(present && ptr + size <= |data|) ==> v == Decode(order, data[old(ptr)..old(ptr) + size]) && ptr == old(ptr) + size
      ensures !old(present && ptr + size <= |data|) ==> v == 0 && ptr == old(ptr)
    {
      var ok := IsValid(size);
      if !ok {
        return 0;
      }
      v := Decode(order, data[ptr..ptr + size]);
      ptr := ptr + size;
    }

    method NextBool8() returns (b: bool)
      modifies this
      ensures b == (ReadNum(old(State()), LittleEndian, 1).0 != 0)
      ensures State() == ReadNum(old(State()), LittleEndian, 1).1
    {
      var v := Next(LittleEndian, 1);
      b := v != 0;
    }

    method NextBool32() returns (b: bool)
      modifies this
      ensures b == (ReadNum(old(State()), LittleEndian, 4).0 != 0)
      ensures State() == ReadNum(old(State()), LittleEndian, 4).1
    {
      var v := Next(LittleEndian, 4);
      b := v != 0;
    }
  }

  class SaveHelper {
    const name: string
    const len: nat
    var buffer: array<byte>
    var live: bool
    var ptr: nat

    ghost predicate Valid()
      reads this
    {
      len <= buffer.Length
    }

    function State(): Writer
      reads this, buffer
    {
      Writer(live, buffer[..], ptr, len)
    }

    /** The buffer comes from DiabloAllocPtr(codec_get_encoded_len(bufferLen)),
        whose contents are unspecified: they are passed in as allocation. */
    constructor (name: string, bufferLen: nat, allocation: seq<byte>)
      requires bufferLen <= |allocation|
      ensures Valid() && fresh(buffer)
      ensures this.name == name
      ensures State() == Writer(true, allocation, 0, bufferLen)
    {
      this.name := name;
      len := bufferLen;
      buffer := new byte[|allocation|](i requires 0 <= i < |allocation| => allocation[i]);
      live := true;
      ptr := 0;
    }

    method IsValid(size: nat) returns (ok: bool)
      ensures ok == CanWrite(State(), size)
    {
      ok := live && ptr + size <= len;
    }

    method Skip(size: nat)
      modifies this
      ensures State() == SkipWrite(old(State()), size)
      ensures buffer == old(buffer) && live == old(live)
    {
      ptr := ptr + size;
    }

    method WriteBytes(bytes: seq<byte>)
      requires Valid()
      modifies this, buffer
      ensures Valid() && buffer == old(buffer)
      ensures State() == WriteRaw(old(State()), bytes)
    {
      var ok := IsValid(|bytes|);
      if !ok {
        return;
      }
      var i := 0;
      while i < |bytes|
        invariant 0 <= i <= |bytes|
        invariant buffer == old(buffer) && ptr == old(ptr) && live == old(live)
        invariant ptr + |bytes| <= len <= buffer.Length
        invariant buffer[..] == old(buffer[..])[..ptr] + bytes[..i] + old(buffer[..])[ptr + i..]
      {
        buffer[ptr + i] := bytes[i];
        i := i + 1;
        assert buffer[..] == old(buffer[..])[..ptr] + bytes[..i] + old(buffer[..])[ptr + i..];
      }
      assert bytes[..i] == bytes;
      ptr := ptr + |bytes|;
    }

    method WriteByte(value: nat)
      requires Valid()
      modifies this, buffer
      ensures Valid() && buffer == old(buffer)
      ensures State() == WriteNum(old(State()), LittleEndian, 1, value)
    {
      WriteBytes(Encode(LittleEndian, value, 1));
    }

    /** writeLE<T>(value) / writeBE<T>(value) with sizeof(T) == size. */
    method Write(order: Order, size: nat, value: nat)
      requires Valid()
      modifies this, buffer
      ensures Valid() && buffer == old(buffer)
      ensures State() == WriteNum(old(State()), order, size, value)
    {
      WriteBytes(Encode(order, value, size));
    }

    /** Hands the first m_bufferPtr bytes to the archive under the helper's
        name and releases the buffer; later calls (the destructor's among
        them) find no buffer and do nothing. */
    method Flush(archive: Archive)
      requires Valid() && (live ==> ptr <= buffer.Length)
      modifies this, archive
      ensures Valid() && !live && buffer == old(buffer) && ptr == old(ptr)
      ensures old(live) ==> archive.files == old(archive.files)[name := old(buffer[..ptr])]
      ensures !old(live) ==> archive.files == old(archive.files)
    {
      if !live {
        return;
      }
      archive.files := archive.files[name := buffer[..ptr]];
      live := false;
    }
  }
}
