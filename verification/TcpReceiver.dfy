/** The receiving half of a PseudoTcp endpoint: trimming, write-ahead and reassembly, as
    `process` of extra/pseudo_tcp/pseudo_tcp.cpp does them. */
module TcpReceiver {
  import opened Numbers
  import opened FifoBuffers
  import opened TcpTypes

  /** Cut a segment at both ends to what is new and what fits. */
  function Trim(r: Rcv, seqno: nat, data: seq<byte>): (s: (nat, seq<byte>))
    requires r.buf.Valid()
    ensures s.1 != [] ==> r.nxt <= s.0 && s.0 - r.nxt + |s.1| <= r.buf.Free()
  {
    TrimBack(r, TrimFront(r, seqno, data))
  }

  function TrimFront(r: Rcv, seqno: nat, data: seq<byte>): (s: (nat, seq<byte>))
    ensures s.1 != [] ==> r.nxt <= s.0
  {
    if seqno < r.nxt then
      var known := r.nxt - seqno;
      if known < |data| then (r.nxt, data[known..]) else (seqno, [])
    else (seqno, data)
  }

  function TrimBack(r: Rcv, s: (nat, seq<byte>)): (u: (nat, seq<byte>))
    requires r.buf.Valid() && (s.1 != [] ==> r.nxt <= s.0)
    ensures u.1 != [] ==> r.nxt <= u.0 && u.0 - r.nxt + |u.1| <= r.buf.Free()
  {
    if s.1 != [] && s.0 + |s.1| - r.nxt > r.buf.Free() then
      var over := s.0 + |s.1| - r.nxt - r.buf.Free();
      if over < |s.1| then (s.0, s.1[..|s.1| - over]) else (s.0, [])
    else s
  }

  /** Into the list of stretches received out of order, in front of the first not below it. */
  function Insert(l: seq<RSegment>, s: RSegment): seq<RSegment> {
    if l == [] || l[0].seqno >= s.seqno then [s] + l
    else [l[0]] + Insert(l[1..], s)
  }

  /** `n` bytes that lie in the write-ahead slots become readable. */
  function Advance(r: Rcv, n: nat): (q: Rcv)
    requires r.buf.Valid() && n <= r.buf.Free()
    ensures q.buf.Valid() && |q.buf.slots| == |r.buf.slots|
  {
    r.(buf := r.buf.ConsumeWrite(n), nxt := r.nxt + n, wnd := Wrap32(r.wnd - n))
  }

  /** A control segment passes: its place in the stream is skipped in the buffer too, if
      nothing waits to be read. */
  function Skip(r: Rcv, n: nat): (q: Rcv)
    requires r.buf.Valid() && n <= r.buf.Free()
    ensures q.buf.Valid() && |q.buf.slots| == |r.buf.slots|
  {
    r.(nxt := r.nxt + n,
       buf := if r.buf.len == 0 then r.buf.ConsumeWrite(n).ConsumeRead(n) else r.buf)
  }

  datatype Recovery = Recovery(rcv: Rcv, found: bool, halted: bool)

  /** Stretches that have come into reach are taken off the list; their bytes are there. */
  function Recover(r: Rcv): (v: Recovery)
    requires r.buf.Valid()
    ensures v.rcv.buf.Valid() && |v.rcv.buf.slots| == |r.buf.slots|
    decreases |r.rlist|
  {
    if r.rlist == [] || r.rlist[0].seqno > r.nxt then Recovery(r, false, false)
    else
      var s := r.rlist[0];
      var rest := r.(rlist := r.rlist[1..]);
      if s.seqno + s.len > r.nxt then
        var n := s.seqno + s.len - r.nxt;
        if n > r.buf.Free() then Recovery(r, false, true)
        else Recover(Advance(rest, n)).(found := true)
      else Recover(rest)
  }

  datatype Arrival = Arrival(rcv: Rcv, taken: bool, newData: bool, recovered: bool, halted: bool)

  /** New bytes `data` of the stream at `at` arrive. */
  function Place(r: Rcv, at: nat, data: seq<byte>, ignore: bool): (v: Arrival)
    requires r.buf.Valid()
    requires data != [] ==> r.nxt <= at && at - r.nxt + |data| <= r.buf.Free()
    ensures v.rcv.buf.Valid() && |v.rcv.buf.slots| == |r.buf.slots|
  {
    if data == [] then Arrival(r, true, false, false, false)
    else if ignore then PlaceControl(r, at, |data|)
    else if r.buf.Free() <= at - r.nxt then Arrival(r, false, false, false, false)
    else if at == r.nxt then PlaceNext(r, data)
    else
      var q := r.(buf := r.buf.Put(data, at - r.nxt));
      Arrival(q.(rlist := Insert(q.rlist, RSegment(at, |data|))), true, false, false, false)
  }

  function PlaceControl(r: Rcv, at: nat, n: nat): (v: Arrival)
    requires r.buf.Valid() && n <= r.buf.Free()
    ensures v.rcv.buf.Valid() && |v.rcv.buf.slots| == |r.buf.slots|
  {
    if at != r.nxt then Arrival(r, true, false, false, false)
    else if r.buf.len != 0 then Arrival(Skip(r, n), true, false, false, false)
    else
      var v := Recover(Skip(r, n));
      Arrival(v.rcv, true, v.found, v.found, v.halted)
  }

  function PlaceNext(r: Rcv, data: seq<byte>): (v: Arrival)
    requires r.buf.Valid() && |data| <= r.buf.Free()
    ensures v.rcv.buf.Valid() && |v.rcv.buf.slots| == |r.buf.slots|
  {
    var v := Recover(Advance(r.(buf := r.buf.Put(data, 0)), |data|));
    Arrival(v.rcv, true, true, v.found, v.halted)
  }

  /** The payload of a segment arrives. `taken` is false when the source drops the packet. */
  function Arrive(r: Rcv, seqno: nat, payload: seq<byte>, ignore: bool): (v: Arrival)
    requires r.buf.Valid()
    ensures v.rcv.buf.Valid() && |v.rcv.buf.slots| == |r.buf.slots|
  {
    var (at, data) := Trim(r, seqno, payload);
    Place(r, at, data, ignore)
  }

  /** The application takes bytes; the window opens again when enough has become free. */
  function Taken(r: Rcv, n: nat, mss: nat): (q: Rcv)
    requires r.buf.Valid() && n <= r.buf.len
    ensures q.buf.Valid()
  {
    var q := r.(buf := r.buf.ConsumeRead(n));
    if Reopens(q, mss) then q.(wnd := q.buf.Free()) else q
  }

  predicate Reopens(r: Rcv, mss: nat)
    requires r.buf.Valid()
  {
    Wrap32(r.buf.Free() - r.wnd) >= Min(|r.buf.slots| / 2, mss)
  }

  /** Largest size of at most `size` bytes that a 16-bit window can announce when scaled. */
  function ScaledSize(size: nat): (r: (nat, nat))
    ensures r.0 <= 0xFFFF && r.0 * Pow2(r.1) <= size < (r.0 + 1) * Pow2(r.1)
    ensures size > 0xFFFF ==> 0x8000 <= r.0
    ensures size <= 0xFFFF ==> r == (size, 0)
  {
    if size > 0xFFFF then
      var (k, f) := ScaledSize(size / 2);
      Doubled(k, f);
      Doubled(k + 1, f);
      (k, f + 1)
    else (size, 0)
  }

  lemma Doubled(k: nat, f: nat)
    ensures k * Pow2(f + 1) == 2 * (k * Pow2(f))
  {
    assert Pow2(f + 1) == 2 * Pow2(f);
  }
}
