/** The byte ring between one writer and one reader, called by one thread at a time. */
module RingBuffer {
  import opened Prelude

  /** Overwriting before position `r` leaves the rest, and extends the part up to `w`. */
  lemma GapKept(before: seq<byte>, after: seq<byte>, w: nat, chunk: seq<byte>, r: nat)
    requires w + |chunk| <= r <= |before| && after == before[..w] + chunk + before[w + |chunk|..]
    ensures after[r..] == before[r..] && after[..w + |chunk|] == before[..w] + chunk
  {
  }

  class Ring {
    /** One slot more than the ring can hold, so that full and empty differ. */
    const data: array<byte>
    var readPos: nat
    var writePos: nat

    /** A read that stops at the end leaves its position there; the next one wraps it. */
    ghost predicate Valid()
      reads this
    {
      readPos <= data.Length && writePos < data.Length
    }

    ghost function Contents(): seq<byte>
      requires Valid()
      reads this, data
    {
      if readPos <= writePos then data[readPos..writePos] else data[readPos..] + data[..writePos]
    }

    ghost function Size(): nat
      requires Valid()
      reads this
    {
      data.Length - 1
    }

    constructor (size: nat)
      ensures Valid() && fresh(data) && Size() == size && Contents() == []
    {
      data := new byte[size + 1](_ => 0);
      readPos, writePos := 0, 0;
    }

    method CopyIn(at: nat, bytes: seq<byte>)
      requires at + |bytes| <= data.Length
      modifies data
      ensures data[..] == old(data[..at]) + bytes + old(data[at + |bytes|..])
    {
      forall i | 0 <= i < |bytes| {
        data[at + i] := bytes[i];
      }
    }

    /** Appends as much of `buf` as fits. */
    method Write(buf: seq<byte>) returns (written: nat)
      requires Valid()
      modifies this`writePos, data
      ensures Valid()
      ensures written == Min(|buf|, Size() - |old(Contents())|)
      ensures Contents() == old(Contents()) + buf[..written]
    {
      written := 0;
      var len := |buf|;
      if writePos >= readPos {
        written, len := WriteAhead(buf);
      }
      ghost var n := written;
      if len > 0 {
        written := WriteGap(buf, written, len);
        Assoc(old(Contents()), buf[..n], buf[n..written]);
        assert buf[..n] + buf[n..written] == buf[..written];
      }
    }

    /** The part of a write that goes up to the end of the array, with what is then left to write. */
    method WriteAhead(buf: seq<byte>) returns (written: nat, left: nat)
      requires Valid() && writePos >= readPos
      modifies this`writePos, data
      ensures Valid() && written <= |buf|
      ensures left > 0 ==> writePos == 0 < readPos && written + left == |buf|
      ensures left == 0 ==> written == Min(|buf|, Size() - |old(Contents())|)
      ensures Contents() == old(Contents()) + buf[..written]
    {
      var len := |buf|;
      var avail := data.Length - writePos;
      if readPos == 0 {
        avail := avail - 1;
        if len > avail { len := avail; }
      }
      if len < avail { avail := len; }
      len := len - avail;
      CopyIn(writePos, buf[..avail]);
      assert data[readPos..writePos + avail] == old(Contents()) + buf[..avail];
      writePos := writePos + avail;
      if writePos == data.Length { writePos := 0; }
      written, left := avail, len;
    }

    /** The part of a write that goes between the write position and the read position ahead of it. */
    method WriteGap(buf: seq<byte>, written: nat, len: nat) returns (total: nat)
      requires Valid() && writePos < readPos && written + len == |buf|
      modifies this`writePos, data
      ensures Valid()
      ensures total == written + Min(len, Size() - |old(Contents())|)
      ensures Contents() == old(Contents()) + buf[written..total]
    {
      var avail := readPos - writePos - 1;
      if len < avail { avail := len; }
      CopyIn(writePos, buf[written..written + avail]);
      total := written + avail;
      GapKept(old(data[..]), data[..], writePos, buf[written..total], readPos);
      Assoc(old(data[readPos..]), old(data[..writePos]), buf[written..total]);
      writePos := writePos + avail;
    }

    /** Takes the oldest bytes, at most `len`. */
    method Read(len: nat) returns (bytes: seq<byte>)
      requires Valid()
      modifies this`readPos
      ensures Valid()
      ensures bytes == old(Contents())[..Min(len, |old(Contents())|)]
      ensures Contents() == old(Contents())[|bytes|..]
    {
      bytes := [];
      var left := len;
      if readPos > writePos {
        bytes, left := ReadToEnd(len);
      }
      if left > 0 {
        var more := ReadBelow(left);
        Assoc(bytes, more, Contents());
        bytes := bytes + more;
      }
      Split(bytes, Contents(), old(Contents()));
    }

    /** The part of a read that goes up to the end of the array, with what is then left to read. */
    method ReadToEnd(len: nat) returns (bytes: seq<byte>, left: nat)
      requires Valid() && readPos > writePos
      modifies this`readPos
      ensures Valid() && old(Contents()) == bytes + Contents() && |bytes| + left == len
      ensures left > 0 ==> readPos <= writePos
    {
      var avail := data.Length - readPos;
      if len < avail { avail := len; }
      left := len - avail;
      bytes := data[readPos..readPos + avail];
      assert data[readPos..] == bytes + data[readPos + avail..];
      Assoc(bytes, data[readPos + avail..], data[..writePos]);
      readPos := readPos + avail;
      if readPos == data.Length {
        assert data[readPos..] + data[..writePos] == data[..writePos];
        readPos := 0;
      }
    }

    /** The part of a read that ends at the write position. */
    method ReadBelow(len: nat) returns (bytes: seq<byte>)
      requires Valid() && readPos <= writePos
      modifies this`readPos
      ensures Valid() && readPos <= writePos
      ensures |bytes| == Min(len, |old(Contents())|) && old(Contents()) == bytes + Contents()
    {
      var avail := writePos - readPos;
      if len < avail { avail := len; }
      bytes := data[readPos..readPos + avail];
      readPos := readPos + avail;
    }

    /** Compares the two positions, and so misses an empty ring whose reader stopped at the end while the
        writer has wrapped. */
    method IsEmpty() returns (empty: bool)
      requires Valid()
      ensures empty <==> Contents() == [] && !(readPos == data.Length && writePos == 0)
    {
      empty := writePos == readPos;
    }

    method Clear()
      requires Valid()
      modifies this
      ensures Valid() && Contents() == []
    {
      readPos, writePos := 0, 0;
    }

    method Capacity() returns (n: nat)
      requires Valid()
      ensures n == Size() - |Contents()|
    {
      if writePos >= readPos {
        return data.Length - writePos + readPos - 1;
      }
      return readPos - writePos - 1;
    }

    method Available() returns (n: nat)
      requires Valid()
      ensures n == |Contents()|
    {
      if readPos > writePos {
        return data.Length - readPos + writePos;
      }
      return writePos - readPos;
    }
  }
}
