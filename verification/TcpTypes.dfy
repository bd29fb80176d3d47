/** The state of a PseudoTcp endpoint as a value, and its packets.

    Fields keep the meaning of the source's `m_*` fields. Sequence numbers are not wrapped:
    the source compares them as plain numbers and does not handle wrap-around. */
module TcpTypes {
  import opened FifoBuffers
  import opened TcpSegments

  const U32: nat := 0x1_0000_0000

  /** The 32-bit value of a sum or difference. */
  function Wrap32(x: int): nat { x % U32 }

  /** Signed 32-bit difference of two clock values. */
  function TimeDiff32(later: int, earlier: int): int {
    var d := Wrap32(later - earlier);
    if d < 0x8000_0000 then d else d - U32
  }

  /** The table of standard packet sizes, largest first; 0 marks its end. */
  function PacketMaximum(level: nat): (m: nat)
    requires level <= LAST_LEVEL + 1
    ensures m == 0 <==> level == LAST_LEVEL + 1
    ensures level <= LAST_LEVEL ==> MIN_PACKET <= m <= MAX_PACKET
  {
    if level == 0 then 65535 else if level == 1 then 32000 else if level == 2 then 17914
    else if level == 3 then 8166 else if level == 4 then 4352 else if level == 5 then 2002
    else if level == 6 then 1492 else if level == 7 then 1006 else if level == 8 then 508
    else if level == 9 then 296 else 0
  }

  const LAST_LEVEL: nat := 9
  const MAX_PACKET: nat := 65535
  const MIN_PACKET: nat := 296
  const HEADER_SIZE: nat := 24
  const PACKET_OVERHEAD: nat := 24 + 8 + 20 + 64

  const MIN_RTO: nat := 250
  const DEF_RTO: nat := 3000
  const MAX_RTO: nat := 60000
  const DEF_ACK_DELAY: nat := 100

  const DEFAULT_RCV_BUF_SIZE: nat := 60 * 1024

  const FLAG_CTL: nat := 2
  const CTL_CONNECT: byte := 0
  const TCP_OPT_EOL: byte := 0
  const TCP_OPT_NOOP: byte := 1
  const TCP_OPT_WND_SCALE: byte := 3

  const DEFAULT_TIMEOUT: nat := 4000
  const CLOSED_TIMEOUT: nat := 60 * 1000

  predicate HasCtl(flags: nat) { flags / 2 % 2 == 1 }
  predicate HasRst(flags: nat) { flags / 4 % 2 == 1 }

  function Pow2(n: nat): (p: nat)
    ensures p > 0
  {
    if n == 0 then 1 else 2 * Pow2(n - 1)
  }

  datatype WriteResult = Success | TooLarge | Fail
  datatype State = Listen | SentSyn | ReceivedSyn | Established | Closed
  datatype SendFlags = None | DelayedAck | ImmediateAck
  datatype ShutdownType = NoShutdown | Graceful | Forceful
  datatype TcpError = NoError | WouldBlock | InvalidState | NotConnected | ConnectionAborted | ConnectionReset
  datatype Event = Opened | Readable | Writeable | ClosedWith(error: TcpError)

  datatype Packet = Packet(conv: nat, seqno: nat, ack: nat, flags: nat, wnd: nat,
                           tsval: nat, tsecr: nat, data: seq<byte>)

  /** A stretch received out of order. */
  datatype RSegment = RSegment(seqno: nat, len: nat)

  datatype Snd = Snd(slist: seq<SSegment>, buf: Ring, nxt: nat, wnd: nat, una: nat, scale: nat)

  datatype Rcv = Rcv(rlist: seq<RSegment>, buf: Ring, nxt: nat, wnd: nat, scale: nat)

  /** Segment size and congestion control. */
  datatype Cc = Cc(mss: nat, level: nat, largest: nat, mtuAdvise: nat,
                   ssthresh: nat, cwnd: nat, dupAcks: nat, recover: nat)

  datatype Tm = Tm(rtoBase: nat, rttvar: nat, srtt: nat, rto: nat,
                   lastsend: nat, lastrecv: nat, lasttraffic: nat,
                   tAck: nat, tsRecent: nat, tsLastack: nat)

  /** The packets the network took, the number of write attempts, and the notifications. */
  datatype Io = Io(out: seq<Packet>, writes: nat, events: seq<Event>)

  datatype Tcb = Tcb(conv: nat, state: State, shutdown: ShutdownType, error: TcpError,
                     readEnable: bool, writeEnable: bool, outgoing: bool,
                     nagling: bool, ackDelay: nat, supportScale: bool,
                     halted: bool, // an assertion of the source has failed
                     snd: Snd, rcv: Rcv, cc: Cc, tm: Tm, io: Io)

  /** What the network answers to the n-th write of an endpoint. */
  type Writer = nat -> WriteResult

  // ---- What emitting packets may change ----

  /** The acknowledgment fields of a packet built by an endpoint with receiving half `r`. */
  predicate AckHeader(p: Packet, r: Rcv) {
    p.ack == r.nxt && p.wnd == WindowField(r)
  }

  function WindowField(r: Rcv): nat { r.wnd / Pow2(r.scale) % 0x10000 }

  /** From `t` to `u` packets went out that acknowledge as `t` does. The receiving half is
      the same. */
  ghost predicate Quiet(t: Tcb, u: Tcb) {
    && u.rcv == t.rcv && u.conv == t.conv && u.shutdown == t.shutdown
    && u.halted == t.halted && u.supportScale == t.supportScale
    && u.nagling == t.nagling && u.ackDelay == t.ackDelay
    && Acknowledging(t.io.out, u.io.out, t.rcv)
  }

  /** `out` with more packets, whose headers acknowledge for `r`. */
  ghost predicate Acknowledging(before: seq<Packet>, out: seq<Packet>, r: Rcv) {
    && before <= out
    && forall k :: |before| <= k < |out| ==> AckHeader(out[k], r)
  }

  lemma QuietInTurn(t: Tcb, u: Tcb, v: Tcb)
    requires Quiet(t, u) && Quiet(u, v)
    ensures Quiet(t, v)
  {
  }

  // ---- Well-formedness of one endpoint, whatever its peer sends ----

  ghost predicate SndOk(s: Snd) {
    && s.buf.Valid() && 4 <= |s.buf.slots|
    && Segs(s.slist, s.una, s.nxt, s.una + s.buf.len)
  }

  ghost predicate CcOk(c: Cc) {
    && 1 <= c.mss && c.mss + PACKET_OVERHEAD <= MAX_PACKET
    && c.level <= LAST_LEVEL
    && PACKET_OVERHEAD < c.mtuAdvise <= MAX_PACKET
    && 1 <= c.cwnd && 1 <= c.ssthresh
    && c.dupAcks < 256
  }

  /** The connect message fits a segment and the window, and will do so. */
  ghost predicate Roomy(c: Cc) {
    4 <= c.mss && PACKET_OVERHEAD + 4 <= c.mtuAdvise && 4 <= c.cwnd && 4 <= c.ssthresh
  }

  ghost predicate Wf(t: Tcb) {
    && SndOk(t.snd)
    && t.rcv.buf.Valid()
    && CcOk(t.cc)
    && t.cc.recover <= t.snd.nxt
    && (t.state.Listen? ==> t.snd.slist == [])
    && (t.tm.rtoBase != 0 ==> t.snd.una < t.snd.nxt)
    && MIN_RTO <= t.tm.rto <= MAX_RTO
  }

  /** The congestion window of an open connection holds a segment, its threshold two, and
      falling back to the next smaller packet size makes the segment smaller. */
  ghost predicate Steady(state: State, c: Cc)
    requires c.level <= LAST_LEVEL
  {
    state.Established? ==>
      && c.mss <= c.cwnd
      && 2 * c.mss <= c.ssthresh
      && (c.level == LAST_LEVEL || PacketMaximum(c.level) <= c.mss + PACKET_OVERHEAD)
  }

  /** The retransmit timer runs while bytes are in flight. */
  ghost predicate Armed(t: Tcb) {
    t.snd.una < t.snd.nxt ==> t.tm.rtoBase != 0
  }

  /** What every operation keeps whatever the peer sends. */
  ghost predicate Sound(t: Tcb, u: Tcb, now: nat) {
    Wf(u) && (now > 0 && Armed(t) ==> Armed(u)) && (Roomy(t.cc) ==> Roomy(u.cc))
  }

  /** What every operation keeps. */
  ghost predicate Keeps(t: Tcb, u: Tcb, now: nat) {
    && Sound(t, u, now) && t.cc.level <= LAST_LEVEL
    && (Steady(t.state, t.cc) ==> Steady(u.state, u.cc))
  }

  lemma KeepsInTurn(t: Tcb, u: Tcb, v: Tcb, now: nat)
    requires Keeps(t, u, now) && Keeps(u, v, now)
    ensures Keeps(t, v, now)
  {
  }

  lemma SoundInTurn(t: Tcb, u: Tcb, v: Tcb, now: nat)
    requires Sound(t, u, now) && Sound(u, v, now)
    ensures Sound(t, v, now)
  {
  }

  lemma KeepsAtAnyTime(t: Tcb, u: Tcb, now: nat)
    requires Keeps(t, u, 1)
    ensures Keeps(t, u, now)
  {
  }
}
