/** The locked byte queue of extra/pseudo_tcp/pseudo_tcp.cpp: a circular array with a
    readable part and, behind it, write-ahead slots for data that came out of order.

    `Ring` is the queue as a value: all slots in logical order, of which the first `len`
    are readable. `FifoBuffer` is the circular array itself. */
module FifoBuffers {
  import opened Numbers

  type byte = x: nat | x < 256

  /** Block copy into array contents. */
  function Overwrite(b: seq<byte>, at: nat, src: seq<byte>): (r: seq<byte>)
    requires at + |src| <= |b|
    ensures |r| == |b|
  {
    b[..at] + src + b[at + |src|..]
  }

  datatype Ring = Ring(slots: seq<byte>, len: nat) {

    predicate Valid() { len <= |slots| && 0 < |slots| }

    function Free(): nat
      requires Valid()
    {
      |slots| - len
    }

    function Data(): seq<byte>
      requires Valid()
    {
      slots[..len]
    }

    /** The bytes a read of at most `n` bytes at `offset` yields. */
    function Peek(n: nat, offset: nat): seq<byte>
      requires Valid() && offset <= len
    {
      slots[offset..offset + Min(n, len - offset)]
    }

    /** Bytes put `offset` slots behind the readable part; what does not fit is cut. */
    function Put(bytes: seq<byte>, offset: nat): (r: Ring)
      requires Valid() && offset <= Free()
      ensures r.Valid() && r.len == len && |r.slots| == |slots|
    {
      var at := len + offset;
      var n := Min(|bytes|, |slots| - at);
      Ring(Overwrite(slots, at, bytes[..n]), len)
    }

    /** The first `n` readable bytes become the last `n` free slots. */
    function ConsumeRead(n: nat): (r: Ring)
      requires Valid() && n <= len
      ensures r.Valid() && r.len == len - n && |r.slots| == |slots|
    {
      Ring(slots[n..] + slots[..n], len - n)
    }

    function ConsumeWrite(n: nat): (r: Ring)
      requires Valid() && n <= Free()
      ensures r.Valid() && r.len == len + n && r.slots == slots
    {
      Ring(slots, len + n)
    }

    function Append(bytes: seq<byte>): (r: Ring)
      requires Valid()
      ensures r.Valid() && r.len == len + Min(|bytes|, Free()) && |r.slots| == |slots|
    {
      Put(bytes, 0).ConsumeWrite(Min(|bytes|, Free()))
    }

    function Resize(size: nat): (r: Ring)
      requires Valid() && len <= size && 0 < size
      ensures r.Valid() && r.len == len && |r.slots| == size
    {
      if size == |slots| then this
      else Ring(Data() + seq(size - len, _ => 0), len)
    }
  }

  /** The queue laws: what is read is what was written, in order. */
  lemma AppendAddsAtTheEnd(r: Ring, bytes: seq<byte>)
    requires r.Valid()
    ensures r.Append(bytes).Data() == r.Data() + bytes[..Min(|bytes|, r.Free())]
  {
  }

  lemma ConsumeReadDropsFromTheFront(r: Ring, n: nat)
    requires r.Valid() && n <= r.len
    ensures r.ConsumeRead(n).Data() == r.Data()[n..]
  {
  }

  /** A write-ahead byte stays where it is, seen from the end of the readable part, while
      other bytes are read, and becomes readable when the part before it is declared written. */
  lemma WriteAheadSurvivesReads(r: Ring, n: nat, offset: nat)
    requires r.Valid() && n <= r.len && offset < r.Free()
    ensures r.ConsumeRead(n).slots[r.len - n + offset] == r.slots[r.len + offset]
  {
  }

  /** The array index of logical slot `k` when the queue starts at `pos`. */
  function Wrap(pos: nat, k: nat, n: nat): nat
    requires pos < n && k <= n
  {
    if pos + k < n then pos + k else pos + k - n
  }

  lemma WrapIsModulo(pos: nat, k: nat, n: nat)
    requires pos < n && k <= n
    ensures (pos + k) % n == Wrap(pos, k, n)
  {
    var x := Wrap(pos, k, n);
    if pos + k < n {
      assert x == pos + k;
    } else if x < n {
      assert pos + k == 1 * n + x;
      ModuloOfSum(x, n);
    }
  }

  lemma ModuloOfSum(x: nat, n: nat)
    requires x < n
    ensures (n + x) % n == x
  {
    assert (1 * n + x) % n == x;
  }

  /** The source's index arithmetic. */
  method SlotIndex(pos: nat, k: nat, n: nat) returns (i: nat)
    requires pos < n && k <= n
    ensures i == Wrap(pos, k, n)
  {
    WrapIsModulo(pos, k, n);
    i := (pos + k) % n;
  }

  /** The slots of array contents `b` in logical order, the queue starting at `pos`. */
  function Rotate(b: seq<byte>, pos: nat): (r: seq<byte>)
    requires pos < |b|
    ensures |r| == |b|
  {
    b[pos..] + b[..pos]
  }

  /** `n` bytes of array contents from `at` on, continuing at the start of the array. */
  function TwoPieces(b: seq<byte>, at: nat, n: nat): (r: seq<byte>)
    requires at < |b| && n <= |b|
    ensures |r| == n
  {
    var tail := Min(n, |b| - at);
    b[at..at + tail] + b[..n - tail]
  }

  /** A logical stretch of the circular array is at most two physical pieces. */
  lemma StretchIsTwoPieces(b: seq<byte>, pos: nat, offset: nat, n: nat)
    requires pos < |b| && offset < |b| && offset + n <= |b|
    ensures Rotate(b, pos)[offset..offset + n] == TwoPieces(b, Wrap(pos, offset, |b|), n)
  {
  }

  /** `src` copied into array contents from `at` on, continuing at the start of the array. */
  function OverwriteTwoPieces(b: seq<byte>, at: nat, src: seq<byte>): (r: seq<byte>)
    requires at < |b| && |src| <= |b|
    ensures |r| == |b|
  {
    var tail := Min(|src|, |b| - at);
    Overwrite(Overwrite(b, at, src[..tail]), 0, src[tail..])
  }

  lemma OverwrittenAt(b: seq<byte>, at: nat, src: seq<byte>, k: nat)
    requires at < |b| && |src| <= |b| && k < |b|
    ensures OverwriteTwoPieces(b, at, src)[k] ==
            if at <= k < at + |src| then src[k - at]
            else if k + |b| < at + |src| then src[k + |b| - at]
            else b[k]
  {
    var tail := Min(|src|, |b| - at);
    var c := Overwrite(b, at, src[..tail]);
    assert c[k] == if at <= k < at + tail then src[..tail][k - at] else b[k];
  }

  /** Writing a logical stretch as two physical pieces updates just that stretch. */
  lemma WrittenStretch(b: seq<byte>, pos: nat, offset: nat, src: seq<byte>)
    requires pos < |b| && offset < |b| && offset + |src| <= |b|
    ensures Rotate(OverwriteTwoPieces(b, Wrap(pos, offset, |b|), src), pos)
         == Overwrite(Rotate(b, pos), offset, src)
  {
    var c := OverwriteTwoPieces(b, Wrap(pos, offset, |b|), src);
    forall k | 0 <= k < |b|
      ensures Rotate(c, pos)[k] == Overwrite(Rotate(b, pos), offset, src)[k]
    {
      OverwrittenAt(b, Wrap(pos, offset, |b|), src, Wrap(pos, k, |b|));
    }
  }

  /** The two pieces written behind the readable part are the queue's `Put`. */
  lemma PutIsTwoPieces(b: seq<byte>, pos: nat, len: nat, src: seq<byte>, offset: nat)
    requires pos < |b| && len + offset < |b|
    ensures var n := Min(|src|, |b| - (len + offset));
            Ring(Rotate(OverwriteTwoPieces(b, Wrap(pos, len + offset, |b|), src[..n]), pos), len)
            == Ring(Rotate(b, pos), len).Put(src, offset)
  {
    var n := Min(|src|, |b| - (len + offset));
    WrittenStretch(b, pos, len + offset, src[..n]);
  }

  /** Moving the start of the queue rotates the slots. */
  lemma RotateAgain(b: seq<byte>, pos: nat, n: nat)
    requires pos < |b| && n <= |b|
    ensures Wrap(pos, n, |b|) < |b|
    ensures Rotate(b, Wrap(pos, n, |b|)) == Rotate(b, pos)[n..] + Rotate(b, pos)[..n]
  {
  }

  class FifoBuffer {
    var buf: array<byte>
    var lenData: nat
    var posRead: nat

    /** The queue that the array holds. */
    ghost var ring: Ring

    ghost predicate Valid()
      reads this, buf
    {
      && 0 < buf.Length && lenData <= buf.Length && posRead < buf.Length
      && ring == Ring(Rotate(buf[..], posRead), lenData)
    }

    constructor (size: nat)
      requires 0 < size
      ensures Valid() && fresh(buf)
      ensures ring == Ring(seq(size, _ => 0), 0)
    {
      buf := new byte[size](_ => 0);
      lenData := 0;
      posRead := 0;
      ring := Ring(seq(size, _ => 0), 0);
    }

    method GetBuffered() returns (n: nat)
      requires Valid()
      ensures n == ring.len
    {
      n := lenData;
    }

    method GetWriteRemaining() returns (n: nat)
      requires Valid()
      ensures n == ring.Free()
    {
      n := buf.Length - lenData;
    }

    method SetCapacity(size: nat) returns (ok: bool)
      requires Valid() && 0 < size
      modifies this
      ensures Valid() && (buf == old(buf) || fresh(buf))
      ensures ok == (old(ring).len <= size)
      ensures ring == if ok then old(ring).Resize(size) else old(ring)
    {
      if lenData > size {
        return false;
      }
      if size != buf.Length {
        var b := new byte[size](_ => 0);
        var kept := TwoPieces(buf[..], posRead, lenData);
        StretchIsTwoPieces(buf[..], posRead, 0, lenData);
        forall i | 0 <= i < lenData { b[i] := kept[i]; }
        assert b[..] == ring.Resize(size).slots;
        buf := b;
        posRead := 0;
        assert Rotate(b[..], 0) == b[..];
      }
      ring := ring.Resize(size);
      return true;
    }

    method ReadOffset(bytes: nat, offset: nat) returns (ok: bool, data: seq<byte>)
      requires Valid()
      ensures ok == (offset < ring.len)
      ensures data == if ok then ring.Peek(bytes, offset) else []
    {
      if offset >= lenData {
        return false, [];
      }
      var readPosition := SlotIndex(posRead, offset, buf.Length);
      var copy := Min(bytes, lenData - offset);
      data := TwoPieces(buf[..], readPosition, copy);
      StretchIsTwoPieces(buf[..], posRead, offset, copy);
      ok := true;
    }

    method WriteOffset(src: seq<byte>, offset: nat) returns (ok: bool, copy: nat)
      requires Valid()
      modifies buf, `ring
      ensures Valid()
      ensures ok == (offset < old(ring).Free())
      ensures copy == if ok then Min(|src|, old(ring).Free() - offset) else 0
      ensures ring == if ok then old(ring).Put(src, offset) else old(ring)
    {
      if lenData + offset >= buf.Length {
        return false, 0;
      }
      copy := WriteWithin(src, offset);
      ok := true;
    }

    method WriteWithin(src: seq<byte>, offset: nat) returns (copy: nat)
      requires Valid() && lenData + offset < buf.Length
      modifies buf, `ring
      ensures Valid()
      ensures copy == Min(|src|, buf.Length - (lenData + offset))
      ensures ring == old(ring).Put(src, offset)
    {
      copy := Min(|src|, buf.Length - (lenData + offset));
      PutIsTwoPieces(buf[..], posRead, lenData, src, offset);
      hide Overwrite, OverwriteTwoPieces, Rotate, Ring.Put, Wrap;
      ring := ring.Put(src, offset);
      var writePosition := SlotIndex(posRead, lenData + offset, buf.Length);
      CopyTwoPieces(writePosition, src[..copy]);
    }

    method CopyMemory(at: nat, src: seq<byte>)
      requires at + |src| <= buf.Length
      modifies buf
      ensures buf[..] == Overwrite(old(buf[..]), at, src)
    {
      forall i | 0 <= i < |src| { buf[at + i] := src[i]; }
    }

    method CopyTwoPieces(at: nat, src: seq<byte>)
      requires at < buf.Length && |src| <= buf.Length
      modifies buf
      ensures buf[..] == OverwriteTwoPieces(old(buf[..]), at, src)
    {
      var tail := Min(|src|, buf.Length - at);
      CopyMemory(at, src[..tail]);
      CopyMemory(0, src[tail..]);
    }

    method Read(bytes: nat) returns (ok: bool, data: seq<byte>)
      requires Valid()
      modifies this
      ensures Valid() && buf == old(buf)
      ensures ok == (0 < old(ring).len)
      ensures data == if ok then old(ring).Peek(bytes, 0) else []
      ensures ring == if ok then old(ring).ConsumeRead(|data|) else old(ring)
    {
      ok, data := ReadOffset(bytes, 0);
      if ok {
        ConsumeReadData(|data|);
      }
    }

    method Write(src: seq<byte>) returns (ok: bool, copy: nat)
      requires Valid()
      modifies this, buf
      ensures Valid() && buf == old(buf)
      ensures ok == (0 < old(ring).Free())
      ensures copy == Min(|src|, old(ring).Free())
      ensures ring == old(ring).Append(src)
    {
      ok, copy := WriteOffset(src, 0);
      if ok {
        lenData := lenData + copy;
        ring := ring.ConsumeWrite(copy);
      } else {
        assert ring.Append(src).slots == ring.slots;
      }
    }

    method ConsumeReadData(size: nat)
      requires Valid() && size <= lenData
      modifies this
      ensures Valid() && buf == old(buf)
      ensures ring == old(ring).ConsumeRead(size)
    {
      RotateAgain(buf[..], posRead, size);
      posRead := SlotIndex(posRead, size, buf.Length);
      lenData := lenData - size;
      ring := ring.ConsumeRead(size);
    }

    method ConsumeWriteBuffer(size: nat)
      requires Valid() && size <= buf.Length - lenData
      modifies this
      ensures Valid() && buf == old(buf)
      ensures ring == old(ring).ConsumeWrite(size)
    {
      lenData := lenData + size;
      ring := ring.ConsumeWrite(size);
    }
  }
}
