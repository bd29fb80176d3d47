/** One direction of a connection: what holds between a sending endpoint, the packets it has
    put on the network, and the receiving endpoint with its acknowledgments. */
module TcpLink {
  import opened FifoBuffers
  import opened TcpSegments
  import opened TcpTypes
  import opened TcpSender
  import opened TcpReceiver
  import opened TcpEndpoint

  /** Length of the connect message with the window-scale option; it heads every stream. */
  const CONNECT: nat := 4

  /** Data may end at `c`: acknowledged, or between two segments. */
  ghost predicate Boundary(s: Snd, c: nat) {
    c <= s.una || IsCut(s.slist, s.una, c)
  }

  /** The right edge of what the receiver has offered. */
  function Edge(r: Rcv): nat { r.nxt + r.wnd }

  // ---- The sender and its stream ----

  ghost predicate ConnectIsWhole(l: seq<SSegment>) {
    forall k :: 0 <= k < |l| ==>
      && (l[k].ctrl <==> l[k].seqno < CONNECT)
      && (l[k].ctrl ==> l[k].seqno == 0 && l[k].len == CONNECT)
  }

  /** The send buffer is the unacknowledged rest of the stream `st`. */
  ghost predicate SenderOk(s: Snd, st: seq<byte>) {
    && SndOk(s)
    && Exact(s.slist, s.una)
    && ConnectIsWhole(s.slist)
    && |st| == s.una + s.buf.len
    && s.buf.Data() == st[s.una..]
    && s.nxt <= |st|
    && (st == [] || CONNECT <= |st|)
  }

  /** A packet of the sender carries what the stream has at its place, and ends at a boundary. */
  ghost predicate PacketOk(p: Packet, conv: nat, s: Snd, st: seq<byte>) {
    && p.conv == conv && !HasRst(p.flags)
    && (HasCtl(p.flags) <==> p.data != [] && p.seqno == 0)
    && (p.data != [] ==>
          && p.seqno + |p.data| <= s.nxt <= |st|
          && p.data == st[p.seqno..p.seqno + |p.data|]
          && (p.seqno < CONNECT ==> p.seqno == 0 && |p.data| == CONNECT)
          && Boundary(s, p.seqno + |p.data|))
  }

  ghost predicate PacketsOk(out: seq<Packet>, conv: nat, s: Snd, st: seq<byte>) {
    forall k :: 0 <= k < |out| ==> PacketOk(out[k], conv, s, st)
  }

  // ---- The acknowledgments ----

  /** A packet of the receiver acknowledges a boundary and promises no more than the edge. */
  ghost predicate AckOk(p: Packet, s: Snd, r: Rcv) {
    && p.ack <= r.nxt && Boundary(s, p.ack)
    && p.ack + p.wnd * Pow2(r.scale) <= Edge(r)
    && (s.nxt == 0 ==> CONNECT <= p.wnd)
  }

  ghost predicate AcksOk(out: seq<Packet>, s: Snd, r: Rcv) {
    forall k :: 0 <= k < |out| ==> AckOk(out[k], s, r)
  }

  // ---- Flow control ----

  /** The size of the receive buffer fits a scaled 16-bit window. */
  ghost predicate Scaled(r: Rcv) {
    && r.buf.Valid() && r.scale < 256
    && |r.buf.slots| < U32 && CONNECT <= |r.buf.slots| / Pow2(r.scale) <= 0xFFFF
  }

  ghost predicate Flow(s: Snd, r: Rcv) {
    && Scaled(r)
    && s.una <= r.nxt <= s.nxt <= Edge(r)
    && Boundary(s, r.nxt)
    && s.una + s.wnd <= Edge(r) && CONNECT <= Edge(r)
    && r.wnd <= r.buf.Free()
    && (r.nxt == 0 || CONNECT <= r.nxt)
    && (s.scale == 0 || s.scale == r.scale)
    && (s.nxt == 0 ==> r.wnd == |r.buf.slots| && (s.slist != [] ==> CONNECT <= s.wnd))
  }

  /** Stretches received out of order end at boundaries of what has been sent. */
  ghost predicate Ranges(s: Snd, r: Rcv) {
    forall k :: 0 <= k < |r.rlist| ==> RangeOk(s, r.rlist[k])
  }

  ghost predicate RangeOk(s: Snd, e: RSegment) {
    e.len > 0 && CONNECT <= e.seqno && e.seqno + e.len <= s.nxt && Boundary(s, e.seqno + e.len)
  }

  // ---- Content ----

  ghost predicate Sorted(l: seq<RSegment>) {
    forall i, j :: 0 <= i < j < |l| ==> l[i].seqno <= l[j].seqno
  }

  /** The bytes of a stored stretch lie in the write-ahead slots at their distance from `nxt`. */
  ghost predicate Holds(r: Rcv, st: seq<byte>, e: RSegment) {
    && r.buf.Valid()
    && e.seqno + e.len <= |st|
    && e.seqno + e.len <= r.nxt + r.buf.Free()
    && forall j :: e.seqno <= j < e.seqno + e.len && r.nxt <= j ==> r.buf.slots[r.buf.len + j - r.nxt] == st[j]
  }

  ghost predicate Stored(r: Rcv, st: seq<byte>) {
    && Sorted(r.rlist)
    && forall k :: 0 <= k < |r.rlist| ==> Holds(r, st, r.rlist[k])
  }

  /** What has been taken and what waits to be read is the stream without its connect message. */
  ghost predicate InOrder(r: Rcv, st: seq<byte>, got: seq<byte>) {
    && r.buf.Valid() && r.nxt <= |st|
    && (r.nxt == 0 ==> got == [] && r.buf.len == 0)
    && (r.nxt != 0 ==> CONNECT <= r.nxt && got + r.buf.Data() == st[CONNECT..r.nxt])
  }

  /** `nxt` is the first missing byte. */
  ghost predicate NoneInReach(r: Rcv) {
    forall k :: 0 <= k < |r.rlist| ==> r.nxt < r.rlist[k].seqno
  }

  ghost predicate Content(r: Rcv, st: seq<byte>, got: seq<byte>) {
    InOrder(r, st, got) && Stored(r, st) && NoneInReach(r)
  }

  // ---- Both ends ----

  /** The connect message is queued when the endpoint leaves the state Listen, once, and is never
      cut. */
  ghost predicate Started(s: Tcb, st: seq<byte>) {
    && (s.state.Listen? ==> st == [])
    && (st == [] ==> s.state.Listen? || s.state.Closed?)
    && s.supportScale && Roomy(s.cc)
    && (st != [] ==> CONNECT <= |st| && st[..CONNECT] == ConnectMessage(s))
  }

  /** What holds in the direction from `s` to `r`, when `s` has queued the stream `st` and the
      application at `r` has got the bytes `got`. The content is claimed until `r` is closed. */
  ghost predicate Link(s: Tcb, r: Tcb, st: seq<byte>, got: seq<byte>) {
    && SenderOk(s.snd, st) && Started(s, st)
    && PacketsOk(s.io.out, s.conv, s.snd, st)
    && AcksOk(r.io.out, s.snd, r.rcv)
    && Flow(s.snd, r.rcv)
    && Ranges(s.snd, r.rcv)
    && (r.shutdown.NoShutdown? ==> Content(r.rcv, st, got))
  }

  // ---- Emitting acknowledgments (the receiving end) ----

  lemma MulMono(a: nat, b: nat, c: nat)
    requires a <= b
    ensures a * c <= b * c
  {
  }

  lemma QuotientTimes(w: nat, q: nat)
    requires q > 0
    ensures w / q * q <= w
  {
  }

  lemma Field(k: nat, q: nat, w: nat)
    requires k * q <= w
    ensures k % 0x10000 * q <= w
  {
    MulMono(k % 0x10000, k, q);
  }

  lemma CodePromisesAtMost(w: nat, q: nat)
    requires q > 0
    ensures w / q % 0x10000 * q <= w
  {
    var k := w / q;
    QuotientTimes(w, q);
    assert k * q <= w;
    Field(k, q, w);
    assert k % 0x10000 * q <= w;
  }

  lemma FieldPromisesAtMostWindow(r: Rcv)
    ensures WindowField(r) * Pow2(r.scale) <= r.wnd
  {
    CodePromisesAtMost(r.wnd, Pow2(r.scale));
  }

  lemma HeaderIsAckOk(p: Packet, s: Snd, r: Rcv)
    requires AckHeader(p, r) && Flow(s, r)
    ensures AckOk(p, s, r)
  {
    FieldPromisesAtMostWindow(r);
  }

  /** Emitting packets does not disturb the direction in which the endpoint receives. */
  lemma QuietKeepsLink(s: Tcb, r: Tcb, q: Tcb, st: seq<byte>, got: seq<byte>)
    requires Link(s, r, st, got) && Quiet(r, q)
    ensures Link(s, q, st, got)
  {
    forall k | 0 <= k < |q.io.out| ensures AckOk(q.io.out[k], s.snd, r.rcv) {
      if k < |r.io.out| {
        assert q.io.out[k] == r.io.out[k];
      } else {
        HeaderIsAckOk(q.io.out[k], s.snd, r.rcv);
      }
    }
  }
}
