/**
 The network buffer: one array, a reader and a writer index, bytes moved to the front or the
 array grown when an append needs room. It refines a queue of bytes, Contents().
 */
module Buffers {
  import opened Bytes

  const CHEAP_PREPEND: nat := 8
  const INITIAL_SIZE: nat := 1024
  const EXTRA: nat := 65536

  function Min(a: nat, b: nat): nat {
    if a < b then a else b
  }

  class Buffer {
    var buffer: array<Byte>
    var readerIndex: nat
    var writerIndex: nat

    ghost predicate Valid()
      reads this
    {
      CHEAP_PREPEND <= readerIndex <= writerIndex <= buffer.Length
    }

    ghost function Contents(): seq<Byte>
      reads this, buffer
      requires Valid()
    {
      buffer[readerIndex..writerIndex]
    }

    constructor (initialSize: nat)
      ensures Valid() && fresh(buffer) && Contents() == [] && buffer.Length == CHEAP_PREPEND + initialSize
    {
      buffer := new Byte[CHEAP_PREPEND + initialSize](_ => 0);
      readerIndex, writerIndex := CHEAP_PREPEND, CHEAP_PREPEND;
    }

    function ReadableBytes(): (n: nat)
      reads this, buffer
      requires Valid()
      ensures n == |Contents()|
    {
      writerIndex - readerIndex
    }

    function WriteableBytes(): nat
      reads this
      requires Valid()
    {
      buffer.Length - writerIndex
    }

    /** Room for len more bytes if the array is left as it is and its bytes are packed. */
    ghost predicate Fits(len: nat)
      reads this
      requires Valid()
    {
      CHEAP_PREPEND + (writerIndex - readerIndex) + len <= buffer.Length
    }

    method RetrieveAll()
      requires Valid()
      modifies this`readerIndex, this`writerIndex
      ensures Valid() && Contents() == [] && readerIndex == writerIndex == CHEAP_PREPEND
    {
      readerIndex, writerIndex := CHEAP_PREPEND, CHEAP_PREPEND;
    }

    /** Drops the first len bytes, or all there are. */
    method Retrieve(len: nat)
      requires Valid()
      modifies this`readerIndex, this`writerIndex
      ensures Valid() && Contents() == old(Contents())[Min(len, |old(Contents())|)..]
      ensures if len < |old(Contents())| then writerIndex == old(writerIndex) else readerIndex == CHEAP_PREPEND
    {
      if len < ReadableBytes() {
        readerIndex := readerIndex + len;
      } else {
        RetrieveAll();
      }
    }

    /** The source reads len bytes from peek() unchecked, so its callers must not ask for more
        than there are. */
    method RetrieveAsString(len: nat) returns (result: seq<Byte>)
      requires Valid() && len <= |Contents()|
      modifies this`readerIndex, this`writerIndex
      ensures Valid() && result + Contents() == old(Contents()) && |result| == len
    {
      Halves(buffer[..], readerIndex, len, writerIndex);
      result := buffer[readerIndex..readerIndex + len];
      Retrieve(len);
    }

    method RetrieveAllAsString() returns (result: seq<Byte>)
      requires Valid()
      modifies this`readerIndex, this`writerIndex
      ensures Valid() && result == old(Contents()) && Contents() == []
    {
      result := RetrieveAsString(ReadableBytes());
    }

    // std::vector::resize to a larger size
    method Resize(size: nat)
      requires Valid() && size >= buffer.Length
      modifies this`buffer
      ensures Valid() && fresh(buffer) && buffer.Length == size && Contents() == old(Contents())
    {
      var larger := new Byte[size](_ => 0);
      forall i | 0 <= i < buffer.Length {
        larger[i] := buffer[i];
      }
      buffer := larger;
    }

    // The in-place half of makeSpace. Its destination is strictly below its source, so copying
    // upwards loses no byte.
    method MoveToFront()
      requires Valid() && CHEAP_PREPEND < readerIndex
      modifies this`readerIndex, this`writerIndex, buffer
      ensures Valid() && Contents() == old(Contents()) && readerIndex == CHEAP_PREPEND
    {
      var readable := ReadableBytes();
      var i := 0;
      while i < readable
        invariant 0 <= i <= readable
        invariant unchanged(this)
        invariant buffer[CHEAP_PREPEND..CHEAP_PREPEND + i] == old(Contents())[..i]
        invariant buffer[readerIndex + i..writerIndex] == old(Contents())[i..]
        modifies buffer
      {
        ghost var was := buffer[..];
        buffer[CHEAP_PREPEND + i] := buffer[readerIndex + i];
        Moved(was, buffer[..], readerIndex, writerIndex, i);
        i := i + 1;
      }
      readerIndex := CHEAP_PREPEND;
      writerIndex := readerIndex + readable;
    }

    /** Called only when the space behind the writer is too small. */
    method MakeSpace(len: nat)
      requires Valid() && WriteableBytes() < len
      modifies this, buffer
      ensures Valid() && Contents() == old(Contents()) && len <= WriteableBytes()
      ensures if !old(Fits(len)) then
          fresh(buffer) && buffer.Length == old(writerIndex) + len && readerIndex == old(readerIndex)
        else buffer == old(buffer) && readerIndex == CHEAP_PREPEND < old(readerIndex)
    {
      if WriteableBytes() + readerIndex - CHEAP_PREPEND < len {
        Resize(writerIndex + len);
      } else {
        MoveToFront();
      }
    }

    method EnsureWritableBytes(len: nat)
      requires Valid()
      modifies this, buffer
      ensures Valid() && Contents() == old(Contents()) && len <= WriteableBytes()
      ensures if old(Fits(len)) then buffer == old(buffer) else fresh(buffer) && buffer.Length == old(writerIndex) + len
      ensures !old(Fits(len)) ==> readerIndex == old(readerIndex)
      ensures old(WriteableBytes()) >= len ==> writerIndex == old(writerIndex) && readerIndex == old(readerIndex)
    {
      if WriteableBytes() < len {
        MakeSpace(len);
      }
    }

    // Bytes put behind the writer, by append or by the kernel; the writer does not move yet.
    method Fill(data: seq<Byte>)
      requires Valid() && |data| <= WriteableBytes()
      modifies buffer
      ensures Contents() == old(Contents()) && buffer[readerIndex..writerIndex + |data|] == old(Contents()) + data
    {
      forall i | 0 <= i < |data| {
        buffer[writerIndex + i] := data[i];
      }
      assert buffer[readerIndex..writerIndex] == old(buffer[readerIndex..writerIndex]);
      assert buffer[writerIndex..writerIndex + |data|] == data;
      Joined(buffer[..], readerIndex, writerIndex, writerIndex + |data|);
    }

    /** Adds the data at the end. The array grows exactly when the live bytes and the new ones
        together exceed what it can hold behind its 8 reserved bytes. */
    method Append(data: seq<Byte>)
      requires Valid()
      modifies this, buffer
      ensures Valid() && Contents() == old(Contents()) + data
      ensures if old(Fits(|data|)) then buffer == old(buffer)
        else fresh(buffer) && buffer.Length == writerIndex == old(writerIndex) + |data|
      ensures old(WriteableBytes()) >= |data| ==> readerIndex == old(readerIndex)
    {
      EnsureWritableBytes(|data|);
      Fill(data);
      writerIndex := writerIndex + |data|;
    }

    /** readv over the free space and a 65536-byte stack buffer. It takes as much of what has
        arrived as the two hold, in order. */
    method ReadFd(fd: Readable) returns (n: int, saveErrno: Errno)
      requires Valid()
      modifies this, buffer
      ensures Valid() && (buffer == old(buffer) || fresh(buffer))
      ensures fd.ReadFails? ==> n == -1 && saveErrno == fd.errno && Contents() == old(Contents())
      ensures fd.Arrived? ==>
        && 0 <= n <= |fd.bytes| && Contents() == old(Contents()) + fd.bytes[..n]
        && (n < |fd.bytes| ==> n == old(WriteableBytes()) + (if old(WriteableBytes()) < EXTRA then EXTRA else 0))
    {
      saveErrno := 0;
      var writeable := WriteableBytes();
      var capacity := if writeable < EXTRA then writeable + EXTRA else writeable;
      match fd {
        case ReadFails(errno) =>
          n, saveErrno := -1, errno;
        case Arrived(bytes) =>
          n := Min(|bytes|, capacity);
          // the kernel fills the first region, then the second
          var first := Min(n, writeable);
          Fill(bytes[..first]);
          var extrabuf := bytes[first..n];
          if n <= writeable {
            writerIndex := writerIndex + n;
          } else {
            writerIndex := buffer.Length;
            Append(extrabuf);
            assert bytes[..first] + extrabuf == bytes[..n];
          }
      }
    }

    method Swap(rhs: Buffer)
      requires Valid() && rhs.Valid()
      modifies this, rhs
      ensures Valid() && rhs.Valid()
      ensures Contents() == old(rhs.Contents()) && rhs.Contents() == old(Contents())
    {
      buffer, rhs.buffer := rhs.buffer, buffer;
      readerIndex, rhs.readerIndex := rhs.readerIndex, readerIndex;
      writerIndex, rhs.writerIndex := rhs.writerIndex, writerIndex;
    }
  }

  lemma Halves(s: seq<Byte>, i: nat, len: nat, k: nat)
    requires i + len <= k <= |s|
    ensures s[i..i + len] + s[i..k][len..] == s[i..k]
  {
  }

  lemma Joined(s: seq<Byte>, i: nat, j: nat, k: nat)
    requires i <= j <= k <= |s|
    ensures s[i..k] == s[i..j] + s[j..k]
  {
  }

  // One byte of the move: the part already moved and the part still to move both stay.
  lemma Moved(was: seq<Byte>, now: seq<Byte>, reader: nat, writer: nat, i: nat)
    requires CHEAP_PREPEND < reader && reader + i < writer <= |was|
    requires now == was[CHEAP_PREPEND + i := was[reader + i]]
    ensures now[CHEAP_PREPEND..CHEAP_PREPEND + i + 1] == was[CHEAP_PREPEND..CHEAP_PREPEND + i] + [was[reader + i]]
    ensures now[reader + i + 1..writer] == was[reader + i..writer][1..]
  {
  }
}
