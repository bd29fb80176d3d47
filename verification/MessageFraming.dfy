/** Messages over a byte stream: the length-prefixed chunk and the receive buffer of a connection
    in extra/pseudo_tcp/pseudo_tcp_message.cpp. */
module MessageFraming {
  import opened Numbers
  import opened FifoBuffers
  import opened TcpTypes

  const MESSAGE_SIZE_MAX: nat := 0x7fffffff
  const HEADER: nat := 4

  datatype Memory = Null | Memory(bytes: seq<byte>)

  /** A number as four bytes, the lowest first. */
  function WriteUint32LE(n: nat): (b: seq<byte>)
    requires n < U32
    ensures |b| == HEADER
  {
    [n % 256, n / 256 % 256, n / 256 / 256 % 256, n / 256 / 256 / 256]
  }

  function ReadUint32LE(b: seq<byte>): (n: nat)
    requires |b| == HEADER
    ensures n < U32
  {
    var (b0: nat, b1: nat, b2: nat, b3: nat) := (b[0], b[1], b[2], b[3]);
    b0 + 256 * (b1 + 256 * (b2 + 256 * b3))
  }

  lemma ReadsWhatWasWritten(n: nat)
    requires n < U32
    ensures ReadUint32LE(WriteUint32LE(n)) == n
  {
    var a := n / 256;
    var b := a / 256;
    assert n == 256 * a + n % 256;
    assert a == 256 * b + a % 256;
  }

  /** The lowest byte comes first. */
  lemma LowestByteFirst(n: nat)
    requires n < U32
    ensures var b := WriteUint32LE(n);
            var (b0: nat, b1: nat, b2: nat, b3: nat) := (b[0], b[1], b[2], b[3]);
            n == b0 + 0x100 * b1 + 0x1_0000 * b2 + 0x100_0000 * b3
  {
    var a := n / 256;
    var b := a / 256;
    assert n == 256 * a + n % 256;
    assert a == 256 * b + a % 256;
    assert b == 256 * (b / 256) + b % 256;
  }

  /** The length of a message in front of it; no chunk for what is too long. */
  function CreateMessageChunk(data: seq<byte>): Memory {
    if |data| <= MESSAGE_SIZE_MAX then Memory(WriteUint32LE(|data|) + data) else Null
  }

  /** At most `n` bytes of `m` behind the first four. */
  function SubBehindHeader(m: seq<byte>, n: nat): seq<byte>
    requires HEADER <= |m|
  {
    m[HEADER..HEADER + Min(n, |m| - HEADER)]
  }

  // ---- What the bytes received so far amount to ----

  /** The source adds in 32 bits. */
  function ChunkSize(d: seq<byte>): nat
    requires HEADER <= |d|
  {
    Wrap32(HEADER + ReadUint32LE(d[..HEADER]))
  }

  predicate ReadComplete(d: seq<byte>) { HEADER <= |d| && ChunkSize(d) <= |d| }

  predicate ReadCompleteOver(d: seq<byte>) { HEADER < |d| && ChunkSize(d) < |d| }

  function ReceivedData(d: seq<byte>): Memory {
    if HEADER < |d| then Memory(SubBehindHeader(d, ReadUint32LE(d[..HEADER]))) else Null
  }

  /** Null stands for no bytes where a message is expected. */
  function BytesOf(m: Memory): seq<byte> { if m.Null? then [] else m.bytes }

  /** Bytes `d` of a stream that begins with the chunk of `msg` complete the message exactly
      when all of the chunk is there, and then yield it, whatever follows. */
  lemma PrefixYieldsMessage(msg: seq<byte>, st: seq<byte>, d: seq<byte>)
    requires |msg| <= MESSAGE_SIZE_MAX && CreateMessageChunk(msg).bytes <= st && d <= st
    ensures ReadComplete(d) <==> HEADER + |msg| <= |d|
    ensures ReadCompleteOver(d) <==> HEADER + |msg| < |d|
    ensures ReadComplete(d) ==> BytesOf(ReceivedData(d)) == msg
  {
    if HEADER <= |d| {
      assert d[..HEADER] == WriteUint32LE(|msg|);
      ReadsWhatWasWritten(|msg|);
      if HEADER + |msg| <= |d| {
        var chunk := CreateMessageChunk(msg).bytes;
        assert d[HEADER..HEADER + |msg|] == chunk[HEADER..HEADER + |msg|] == msg;
      }
    }
  }

  /** All pieces in a row. */
  function Joined(pieces: seq<seq<byte>>): seq<byte> {
    if pieces == [] then [] else Joined(pieces[..|pieces| - 1]) + pieces[|pieces| - 1]
  }

  lemma {:induction false} JoinedGrows(pieces: seq<seq<byte>>, k: nat)
    requires k <= |pieces|
    ensures Joined(pieces[..k]) <= Joined(pieces)
  {
    if k < |pieces| {
      var before := pieces[..|pieces| - 1];
      JoinedGrows(before, k);
      assert before[..k] == pieces[..k];
    } else {
      assert pieces[..k] == pieces;
    }
  }

  /** Framing round trip: cut the chunk of `msg`, with anything behind it, into any pieces. After
      `k` of them the message is complete exactly when as many bytes as the chunk has have
      arrived, and then it is `msg`. */
  lemma FramingRoundTrip(msg: seq<byte>, rest: seq<byte>, pieces: seq<seq<byte>>, k: nat)
    requires |msg| <= MESSAGE_SIZE_MAX && Joined(pieces) == CreateMessageChunk(msg).bytes + rest
    requires k <= |pieces|
    ensures ReadComplete(Joined(pieces[..k])) <==> HEADER + |msg| <= |Joined(pieces[..k])|
    ensures ReadComplete(Joined(pieces[..k])) ==> BytesOf(ReceivedData(Joined(pieces[..k]))) == msg
    ensures ReadComplete(Joined(pieces))
  {
    JoinedGrows(pieces, k);
    PrefixYieldsMessage(msg, Joined(pieces), Joined(pieces[..k]));
    PrefixYieldsMessage(msg, Joined(pieces), Joined(pieces));
  }

  /** What the application of a connection has read. */
  class MessageReader {
    var header: array<byte>
    var data: seq<byte>

    /** The header holds the first bytes of the data, as far as they have come. */
    ghost predicate Valid()
      reads this, header
    {
      && header.Length == HEADER
      && |data| < U32
      && header[..Min(HEADER, |data|)] == data[..Min(HEADER, |data|)]
    }

    constructor ()
      ensures Valid() && fresh(header) && data == []
    {
      header := new byte[HEADER];
      data := [];
    }

    method Append(piece: seq<byte>)
      requires Valid() && |data| + |piece| < U32
      modifies this, header
      ensures Valid() && header == old(header) && data == old(data) + piece
    {
      var m := |data|;
      if m < HEADER {
        var k := Min(HEADER - m, |piece|);
        forall i | 0 <= i < k { header[m + i] := piece[i]; }
      }
      data := data + piece;
    }

    method IsReadComplete() returns (complete: bool)
      requires Valid()
      ensures complete == ReadComplete(data)
    {
      if |data| >= HEADER {
        assert header[..] == header[..HEADER] == data[..HEADER];
      }
      complete := |data| >= HEADER && |data| >= Wrap32(HEADER + ReadUint32LE(header[..]));
    }

    method IsReadCompleteOver() returns (over: bool)
      requires Valid()
      ensures over == ReadCompleteOver(data)
    {
      if |data| >= HEADER {
        assert header[..] == header[..HEADER] == data[..HEADER];
      }
      over := |data| > HEADER && |data| > Wrap32(HEADER + ReadUint32LE(header[..]));
    }

    method GetReceivedData() returns (m: Memory)
      requires Valid()
      ensures m == ReceivedData(data)
    {
      if |data| <= HEADER {
        return Null;
      }
      assert header[..] == header[..HEADER] == data[..HEADER];
      m := Memory(SubBehindHeader(data, ReadUint32LE(header[..])));
    }

    /** Read the pieces that wait until the message is complete; `k` of them are read. */
    method OnReadable(pieces: seq<seq<byte>>) returns (complete: bool, k: nat)
      requires Valid() && |data| + |Joined(pieces)| < U32
      modifies this, header
      ensures Valid() && header == old(header)
      ensures k <= |pieces| && data == old(data) + Joined(pieces[..k])
      ensures complete ==> ReadComplete(data) && k > 0
      ensures !complete ==> k == |pieces|
      ensures forall i :: 0 < i < k ==> !ReadComplete(old(data) + Joined(pieces[..i]))
      ensures !complete && k > 0 ==> !ReadComplete(data)
    {
      k, complete := 0, false;
      while k < |pieces|
        invariant Valid() && header == old(header) && k <= |pieces| && !complete
        invariant data == old(data) + Joined(pieces[..k])
        invariant forall i :: 0 < i <= k ==> !ReadComplete(old(data) + Joined(pieces[..i]))
      {
        JoinedGrows(pieces, k + 1);
        assert pieces[..k + 1][..k] == pieces[..k];
        Append(pieces[k]);
        k := k + 1;
        complete := IsReadComplete();
        if complete {
          return;
        }
      }
    }
  }
}
