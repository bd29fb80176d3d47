/** A PseudoTcp endpoint: every operation of extra/pseudo_tcp/pseudo_tcp.cpp as a function from
    the endpoint's state to its new state. `now` is the clock, `w` the network's answers. */
module TcpEndpoint {
  import opened Numbers
  import opened FifoBuffers
  import opened TcpSegments
  import opened TcpTypes
  import opened TcpSender
  import opened TcpReceiver

  function Notify(t: Tcb, e: Event): Tcb {
    t.(io := t.io.(events := t.io.events + [e]))
  }

  function Closedown(t: Tcb, error: TcpError): (u: Tcb)
    requires Wf(t)
    ensures Keeps(t, u, 1) && Quiet(t, u) && u.snd == t.snd && u.cc == t.cc && u.tm == t.tm && u.state.Closed?
  {
    Notify(t.(state := Closed), ClosedWith(error))
  }

  // ---- Set-up ----

  function NewTcb(conv: nat, rcvSize: nat, sndSize: nat, now: nat): Tcb
    requires 4 <= rcvSize < U32 && 4 <= sndSize
  {
    var (k, f) := ScaledSize(rcvSize);
    var size := k * Pow2(f);
    Tcb(conv, Listen, NoShutdown, NoError, true, false, false, true, DEF_ACK_DELAY, true, false,
        Snd([], Ring(seq(sndSize, _ => 0), 0), 0, 1, 0, 0),
        Rcv([], Ring(seq(size, _ => 0), 0), 0, size, f),
        Cc(MIN_PACKET - PACKET_OVERHEAD, 0, 0, MAX_PACKET, size, 2 * (MIN_PACKET - PACKET_OVERHEAD), 0, 0),
        Tm(0, 0, 0, DEF_RTO, now, now, now, 0, 0, 0),
        Io([], 0, []))
  }

  function ConnectMessage(t: Tcb): (m: seq<byte>)
    ensures m != [] && |m| <= 4
  {
    if t.supportScale then [CTL_CONNECT, TCP_OPT_WND_SCALE, 1, t.rcv.scale % 256] else [CTL_CONNECT]
  }

  function QueueConnectMessage(t: Tcb): (u: Tcb)
    requires Wf(t) && t.snd.slist == []
    ensures SndOk(u.snd) && Quiet(t, u) && u.snd.nxt == t.snd.nxt && u.snd.una == t.snd.una
  {
    var m := ConnectMessage(t);
    QueueOk(t.snd.(wnd := |m|), m, true);
    t.(snd := Queue(t.snd.(wnd := |m|), m, true))
  }

  /** Leave the state Listen with a connect message. */
  function Greet(t: Tcb, next: State): (u: Tcb)
    requires Wf(t) && t.state.Listen? && (next.SentSyn? || next.ReceivedSyn?)
    ensures Keeps(t, u, 0) && Quiet(t, u) && u.io.out == t.io.out && u.tm == t.tm
    ensures Armed(t) ==> Armed(u)
  {
    QueueConnectMessage(t.(state := next))
  }

  function MtuLevel(mtu: nat, level: nat): (l: nat)
    requires level <= LAST_LEVEL
    ensures level <= l <= LAST_LEVEL
    ensures l == LAST_LEVEL || PacketMaximum(l) <= mtu
    ensures forall k :: level <= k < l ==> mtu < PacketMaximum(k)
    decreases LAST_LEVEL - level
  {
    if PacketMaximum(level + 1) == 0 || PacketMaximum(level) <= mtu then level
    else MtuLevel(mtu, level + 1)
  }

  function AdjustMtu(c: Cc): (d: Cc)
    requires CcOk(c)
    ensures CcOk(d) && Steady(Established, d) && d.recover == c.recover && (Roomy(c) ==> Roomy(d))
  {
    var mss := c.mtuAdvise - PACKET_OVERHEAD;
    c.(level := MtuLevel(c.mtuAdvise, 0), mss := mss,
       ssthresh := Max(c.ssthresh, 2 * mss), cwnd := Max(c.cwnd, mss))
  }

  function Establish(t: Tcb): (u: Tcb)
    requires Wf(t)
    ensures Wf(u) && Quiet(t, u) && u.snd == t.snd && u.state.Established? && Steady(u.state, u.cc)
    ensures Roomy(t.cc) ==> Roomy(u.cc)
  {
    Notify(t.(state := Established, cc := AdjustMtu(t.cc)), Opened)
  }

  // ---- Options of the connect message ----

  /** The last window scale set, whether the option occurred, and whether parsing broke off. */
  datatype Options = Options(scale: seq<nat>, offered: bool, broken: bool)

  function ParseOptions(d: seq<byte>, o: Options): Options
    decreases |d|
  {
    if d == [] || d[0] == TCP_OPT_EOL then o
    else if d[0] == TCP_OPT_NOOP then ParseOptions(d[1..], o)
    else
      var len := if |d| > 1 then d[1] else 0;
      var rest := if |d| > 1 then d[2..] else [];
      if len > |rest| then o.(broken := true)
      else ParseOptions(rest[len..],
             if d[0] == TCP_OPT_WND_SCALE
             then o.(offered := true, scale := if len == 1 then [rest[0]] else o.scale)
             else o)
  }

  function Resized(r: Rcv, size: nat, scale: nat): (q: Rcv)
    requires r.buf.Valid() && r.buf.len <= size && 0 < size
    ensures q.buf.Valid()
  {
    var b := r.buf.Resize(size);
    r.(buf := b, scale := scale, wnd := b.Free())
  }

  function FitBuffer(t: Tcb, size: nat, scale: nat): (u: Tcb)
    requires Wf(t) && 4 <= size
    ensures Wf(u) && u.snd == t.snd && u.state == t.state && u.io == t.io && u.tm == t.tm
    ensures Roomy(t.cc) ==> Roomy(u.cc)
  {
    if t.rcv.buf.len > size then t.(halted := true)
    else t.(rcv := Resized(t.rcv, size, scale), cc := t.cc.(ssthresh := size))
  }

  lemma ScaledIsLarge(size: nat)
    requires 4 <= size
    ensures 4 <= ScaledSize(size).0 * Pow2(ScaledSize(size).1)
  {
  }

  function ResizeReceiveBuffer(t: Tcb, newSize: nat): (u: Tcb)
    requires Wf(t) && 4 <= newSize
    ensures Wf(u) && u.snd == t.snd && u.state == t.state && u.io == t.io && u.tm == t.tm
    ensures Roomy(t.cc) ==> Roomy(u.cc)
  {
    ScaledIsLarge(newSize);
    var (k, f) := ScaledSize(newSize);
    FitBuffer(t, k * Pow2(f), f)
  }

  /** The peer does not scale: back to the default buffer, which needs no scale. */
  function Reverted(t: Tcb): (u: Tcb)
    requires Wf(t)
    ensures Wf(u) && u.snd == t.snd.(scale := 0) && u.state == t.state && u.io == t.io && u.tm == t.tm
    ensures Roomy(t.cc) ==> Roomy(u.cc)
  {
    var t1 := ResizeReceiveBuffer(t, DEFAULT_RCV_BUF_SIZE);
    t1.(snd := t1.snd.(scale := 0))
  }

  function ApplyOptions(t: Tcb, o: Options): (u: Tcb)
    requires Wf(t)
    ensures Wf(u) && u.snd == t.snd.(scale := u.snd.scale) && u.state == t.state && u.io == t.io && u.tm == t.tm
    ensures Roomy(t.cc) ==> Roomy(u.cc)
    ensures o.broken || o.offered || t.rcv.scale == 0 ==> u.rcv == t.rcv && u.cc == t.cc && u.halted == t.halted
  {
    var t1 := if o.scale == [] then t else t.(snd := t.snd.(scale := o.scale[0]));
    if !o.broken && !o.offered && t1.rcv.scale > 0 then Reverted(t1) else t1
  }

  // ---- process ----

  datatype Controlled = Refuse(t: Tcb) | Accept(t: Tcb, connect: bool)

  function OptionsOf(p: Packet): Options
    requires p.data != []
  {
    ParseOptions(p.data[1..], Options([], false, false))
  }

  /** A connect message without window scaling reaches an endpoint that scales its window:
      the source then shrinks the receive buffer. */
  predicate Renegotiates(t: Tcb, p: Packet) {
    && HasCtl(p.flags) && p.data != [] && p.data[0] == CTL_CONNECT
    && !OptionsOf(p).broken && !OptionsOf(p).offered && t.rcv.scale > 0
  }

  /** A connect message starts or completes the hand-shake. */
  function Shake(t: Tcb): (u: Tcb)
    requires Wf(t)
    ensures Keeps(t, u, 0) && Quiet(t, u) && u.io.out == t.io.out && u.tm == t.tm
    ensures Armed(t) ==> Armed(u)
  {
    if t.state.Listen? then Greet(t, ReceivedSyn)
    else if t.state.SentSyn? then Establish(t)
    else t
  }

  function Control(t: Tcb, p: Packet): (r: Controlled)
    requires Wf(t)
    ensures Wf(r.t) && r.t.io.out == t.io.out && r.t.tm == t.tm && (Roomy(t.cc) ==> Roomy(r.t.cc))
    ensures !Renegotiates(t, p) ==> Quiet(t, r.t)
    ensures Armed(t) ==> Armed(r.t)
    ensures Steady(t.state, t.cc) && !Renegotiates(t, p) ==> Steady(r.t.state, r.t.cc)
  {
    hide SndOk, CcOk, Acknowledging, OptionsOf;
    if !HasCtl(p.flags) then Accept(t, false)
    else if p.data == [] || p.data[0] != CTL_CONNECT then Refuse(t)
    else
      var t1 := ApplyOptions(t, OptionsOf(p));
      if t1.halted then Refuse(t1) else Accept(Shake(t1), true)
  }

  function Stamp(t: Tcb, p: Packet): Tcb {
    if p.seqno <= t.tm.tsLastack < p.seqno + |p.data| then t.(tm := t.tm.(tsRecent := p.tsval)) else t
  }

  /** Round-trip estimation from an echoed time stamp. */
  function Estimate(m: Tm, rtt: nat): Tm {
    var err := if rtt > m.srtt then rtt - m.srtt else m.srtt - rtt;
    var var1 := if m.srtt == 0 then rtt / 2 else (3 * m.rttvar + err) / 4;
    var srtt1 := if m.srtt == 0 then rtt else (7 * m.srtt + rtt) / 8;
    m.(rttvar := var1, srtt := srtt1,
       rto := Min(MAX_RTO, Max(MIN_RTO, srtt1 + Max(1, 4 * var1))))
  }

  function EstimateFrom(m: Tm, p: Packet, now: nat): Tm {
    if p.tsecr != 0 && TimeDiff32(now, p.tsecr) >= 0 then Estimate(m, TimeDiff32(now, p.tsecr)) else m
  }

  function WindowOf(p: Packet, scale: nat): nat { Wrap32(p.wnd * Pow2(scale)) }

  /** The bytes up to `ack` leave the send buffer; also the largest segment that went whole. */
  function Freed(s: Snd, ack: nat, wnd: nat, largest: nat): (r: (Snd, nat))
    requires SndOk(s) && s.una < ack <= s.nxt
    ensures SndOk(r.0) && r.0.una == ack && r.0.nxt == s.nxt
  {
    EndIsLast(s.slist, s.una, s.nxt, s.una + s.buf.len);
    AckFreeKeeps(s.slist, s.una, s.nxt, s.una + s.buf.len, ack - s.una, largest);
    var (l, most) := AckFree(s.slist, ack - s.una, largest);
    (s.(slist := l, buf := s.buf.ConsumeRead(ack - s.una), una := ack, wnd := wnd), most)
  }

  function WithFreed(t: Tcb, ack: nat, wnd: nat): (u: Tcb)
    requires SndOk(t.snd) && t.snd.una < ack <= t.snd.nxt
    ensures SndOk(u.snd) && u.snd.una == ack && u.snd.nxt == t.snd.nxt
  {
    var (s, most) := Freed(t.snd, ack, wnd, t.cc.largest);
    t.(snd := s, cc := t.cc.(largest := most))
  }

  /** The retransmit timer starts again, or stops when nothing is left in flight. */
  function Rearmed(t: Tcb, now: nat): Tcb {
    t.(tm := t.tm.(rtoBase := if t.snd.una == t.snd.nxt then 0 else now))
  }

  function AckBytes(t: Tcb, p: Packet, now: nat): (u: Tcb)
    requires Wf(t) && t.snd.una < p.ack <= t.snd.nxt
    ensures Keeps(t, u, now) && Quiet(t, u) && u.snd.una == p.ack
  {
    ListenHasNothingInFlight(t);
    Rearmed(WithFreed(t, p.ack, WindowOf(p, t.snd.scale)), now)
  }

  lemma ListenHasNothingInFlight(t: Tcb)
    requires Wf(t)
    ensures t.state.Listen? ==> t.snd.una == t.snd.nxt
  {
  }

  /** Congestion window after `n` bytes have been acknowledged outside of recovery. */
  function Grow(c: Cc): Cc
    requires c.cwnd > 0
  {
    c.(dupAcks := 0,
       cwnd := if c.cwnd < c.ssthresh then c.cwnd + c.mss else c.cwnd + Max(1, c.mss * c.mss / c.cwnd))
  }

  function Grown(t: Tcb): (u: Tcb)
    requires Wf(t)
    ensures Keeps(t, u, 1) && Quiet(t, u) && u.snd == t.snd
  {
    t.(cc := Grow(t.cc))
  }

  datatype Acked = Fine(t: Tcb) | Dropped(t: Tcb)

  /** Transmit the oldest segment in flight again; the connection ends when that fails. */
  function Retransmit(t: Tcb, now: nat, w: Writer): (r: Acked)
    requires Wf(t) && t.snd.una < t.snd.nxt
    ensures Keeps(t, r.t, now) && Quiet(t, r.t) && SameBuffer(t.snd, r.t.snd)
    ensures r.Fine? ==> Sends(t, r.t)
    ensures r.Dropped? ==> r.t.state.Closed?
  {
    FrontInFlight(t.snd.slist, t.snd.una, t.snd.nxt, t.snd.una + t.snd.buf.len);
    var (ok, u) := Transmit(t, 0, now, w);
    if ok then Fine(u) else Dropped(Closedown(u, ConnectionAborted))
  }

  /** Fast retransmit: half of what is in flight becomes the threshold. */
  function EnterRecovery(t: Tcb): (u: Tcb)
    requires Wf(t)
    ensures Keeps(t, u, 1) && Quiet(t, u) && u.snd == t.snd
  {
    var ssthresh := Max(InFlight(t) / 2, 2 * t.cc.mss);
    t.(cc := t.cc.(recover := t.snd.nxt, ssthresh := ssthresh, cwnd := ssthresh + 3 * t.cc.mss))
  }

  function ExitRecovery(t: Tcb): (u: Tcb)
    requires Wf(t)
    ensures Keeps(t, u, 1) && Quiet(t, u) && u.snd == t.snd
  {
    t.(cc := t.cc.(cwnd := Min(t.cc.ssthresh, InFlight(t) + t.cc.mss), dupAcks := 0))
  }

  function NewAck(t: Tcb, p: Packet, now: nat, w: Writer): (r: Acked)
    requires Wf(t) && t.snd.una < p.ack <= t.snd.nxt
    ensures Keeps(t, r.t, now) && Quiet(t, r.t)
  {
    var t1 := AckBytes(t.(tm := EstimateFrom(t.tm, p, now)), p, now);
    var r := Progress(t1, p.ack - t.snd.una, now, w);
    QuietInTurn(t, t1, r.t);
    KeepsInTurn(t, t1, r.t, now);
    r
  }

  /** Congestion control after `n` bytes have been acknowledged. */
  function Progress(t: Tcb, n: nat, now: nat, w: Writer): (r: Acked)
    requires Wf(t)
    ensures Keeps(t, r.t, now) && Quiet(t, r.t) && SameBuffer(t.snd, r.t.snd)
  {
    if t.cc.dupAcks < 3 then Fine(Grown(t))
    else if t.snd.una >= t.cc.recover then Fine(ExitRecovery(t))
    else
      match Retransmit(t, now, w)
      case Dropped(t1) => Dropped(t1)
      case Fine(t1) => Fine(Deflated(t1, n))
  }

  function Deflated(t: Tcb, n: nat): (u: Tcb)
    requires Wf(t)
    ensures Keeps(t, u, 1) && Quiet(t, u) && u.snd == t.snd
  {
    t.(cc := Deflate(t.cc, n))
  }

  /** A partial acknowledgment of `n` bytes during recovery. */
  function Deflate(c: Cc, n: nat): Cc
  {
    c.(cwnd := c.cwnd + c.mss - Min(n, c.cwnd))
  }

  function DuplicateAck(t: Tcb, p: Packet, now: nat, w: Writer): (r: Acked)
    requires Wf(t) && p.ack == t.snd.una
    ensures Keeps(t, r.t, now) && Quiet(t, r.t)
  {
    Repeated(t.(snd := t.snd.(wnd := WindowOf(p, t.snd.scale))), p.data == [], now, w)
  }

  /** The peer acknowledges what it has acknowledged before; only packets without payload count. */
  function Repeated(t: Tcb, bare: bool, now: nat, w: Writer): (r: Acked)
    requires Wf(t)
    ensures Keeps(t, r.t, now) && Quiet(t, r.t) && SameBuffer(t.snd, r.t.snd)
  {
    if !bare then Fine(t)
    else if t.snd.una == t.snd.nxt then Fine(t.(cc := t.cc.(dupAcks := 0)))
    else CountDuplicate(t.(cc := t.cc.(dupAcks := (t.cc.dupAcks + 1) % 256)), now, w)
  }

  /** The count of duplicate acknowledgments has gone up. */
  function CountDuplicate(t: Tcb, now: nat, w: Writer): (r: Acked)
    requires Wf(t) && t.snd.una != t.snd.nxt
    ensures Keeps(t, r.t, now) && Quiet(t, r.t) && SameBuffer(t.snd, r.t.snd)
  {
    EndIsLast(t.snd.slist, t.snd.una, t.snd.nxt, t.snd.una + t.snd.buf.len);
    if t.cc.dupAcks == 3 then
      match Retransmit(t, now, w)
      case Dropped(t1) => Dropped(t1)
      case Fine(t1) => Fine(EnterRecovery(t1))
    else if t.cc.dupAcks > 3 then Fine(t.(cc := t.cc.(cwnd := t.cc.cwnd + t.cc.mss)))
    else Fine(t)
  }

  function Acknowledge(t: Tcb, p: Packet, now: nat, w: Writer): (r: Acked)
    requires Wf(t)
    ensures Keeps(t, r.t, now) && Quiet(t, r.t)
  {
    if t.snd.una < p.ack <= t.snd.nxt then NewAck(t, p, now, w)
    else if p.ack == t.snd.una then DuplicateAck(t, p, now, w)
    else Fine(t)
  }

  function Refill(t: Tcb): (u: Tcb)
    requires Wf(t)
    ensures Keeps(t, u, 0) && Quiet(t, u) && u.snd == t.snd && u.tm == t.tm
  {
    if t.writeEnable && t.snd.buf.len < (|t.snd.buf.slots| + |t.rcv.buf.slots|) / 2
    then Notify(t.(writeEnable := false), Writeable)
    else t
  }

  function ReplyFlags(t: Tcb, p: Packet): SendFlags {
    if p.seqno != t.rcv.nxt then ImmediateAck
    else if p.data == [] then None
    else if t.ackDelay == 0 then ImmediateAck
    else DelayedAck
  }

  /** The state after the acknowledgment, the hand-shake and the refill notification. */
  function AfterAck(t: Tcb, connect: bool): (u: Tcb)
    requires Wf(t)
    ensures Keeps(t, u, 1) && Quiet(t, u) && u.snd == t.snd && u.tm == t.tm
  {
    Refill(if t.state.ReceivedSyn? && !connect then Establish(t) else t)
  }

  function ArriveAt(t: Tcb, p: Packet): (v: Arrival)
    requires t.rcv.buf.Valid()
    ensures v.rcv.buf.Valid()
  {
    Arrive(t.rcv, p.seqno, p.data, HasCtl(p.flags) || !t.shutdown.NoShutdown?)
  }

  function Delivered(t: Tcb, newData: bool): (u: Tcb)
    requires Wf(t)
    ensures Keeps(t, u, 1) && Quiet(t, u) && u.snd == t.snd && u.tm == t.tm && u.cc == t.cc
  {
    if newData && t.readEnable then Notify(t.(readEnable := false), Readable) else t
  }

  /** Another receiving half. */
  function WithRcv(t: Tcb, r: Rcv, halted: bool): (u: Tcb)
    requires Wf(t) && r.buf.Valid()
    ensures Keeps(t, u, 1)
  {
    t.(rcv := r, halted := halted)
  }

  /** The payload, the reply and the notification of new data. */
  function Payload(t: Tcb, p: Packet, now: nat, w: Writer): (r: (bool, Tcb))
    requires Wf(t)
    ensures Keeps(t, r.1, now)
  {
    var v := ArriveAt(t, p);
    var t1 := WithRcv(t, v.rcv, v.halted);
    KeepsAtAnyTime(t, t1, now);
    if v.halted || !v.taken then (false, t1)
    else
      var flags := if v.recovered then ImmediateAck else ReplyFlags(t, p);
      var t2 := AttemptSend(t1, flags, now, w);
      KeepsInTurn(t, t1, t2, now);
      KeepsAtAnyTime(t2, Delivered(t2, v.newData), now);
      KeepsInTurn(t, t2, Delivered(t2, v.newData), now);
      (true, Delivered(t2, v.newData))
  }

  /** What follows the acknowledgment in a packet. */
  function Rest(t: Tcb, p: Packet, connect: bool, now: nat, w: Writer): (r: (bool, Tcb))
    requires Wf(t)
    ensures Keeps(t, r.1, now)
  {
    var t1 := AfterAck(t, connect);
    var r := Payload(t1, p, now, w);
    KeepsAtAnyTime(t, t1, now);
    KeepsInTurn(t, t1, r.1, now);
    r
  }

  /** What follows the control data of a packet. */
  function Answer(t: Tcb, p: Packet, connect: bool, now: nat, w: Writer): (r: (bool, Tcb))
    requires Wf(t)
    ensures Keeps(t, r.1, now)
  {
    match Acknowledge(Stamp(t, p), p, now, w)
    case Dropped(t1) => (false, t1)
    case Fine(t1) =>
      var r := Rest(t1, p, connect, now, w);
      KeepsInTurn(t, t1, r.1, now);
      r
  }

  function Handle(t: Tcb, p: Packet, now: nat, w: Writer): (r: (bool, Tcb))
    requires Wf(t)
    ensures Sound(t, r.1, now)
    ensures !Renegotiates(t, p) ==> Keeps(t, r.1, now)
  {
    match Control(t, p)
    case Refuse(t1) => (false, t1)
    case Accept(t1, connect) =>
      var r := Answer(t1, p, connect, now, w);
      SoundInTurn(t, t1, r.1, now);
      r
  }

  function Received(t: Tcb, now: nat): (u: Tcb)
    requires Wf(t)
    ensures Keeps(t, u, 1) && u.rcv == t.rcv && u.state == t.state
  {
    t.(tm := t.tm.(lasttraffic := now, lastrecv := now), outgoing := false)
  }

  function Process(t: Tcb, p: Packet, now: nat, w: Writer): (r: (bool, Tcb))
    requires Wf(t)
    ensures Sound(t, r.1, now)
    ensures !Renegotiates(t, p) ==> Keeps(t, r.1, now)
  {
    KeepsItself(t, now);
    hide Keeps, Sound, Renegotiates, Handle, Received, Closedown;
    if t.halted || p.conv != t.conv then (false, t)
    else
      var t1 := Received(t, now);
      KeepsAtAnyTime(t, t1, now);
      KeptOn(t, t1, t1, p, now);
      if t.state.Closed? then (false, t1)
      else if HasRst(p.flags) then
        KeptOn(t, t1, Closedown(t1, ConnectionReset), p, now);
        (false, Closedown(t1, ConnectionReset))
      else
        var r := Handle(t1, p, now, w);
        KeptOn(t, t1, r.1, p, now);
        r
  }

  lemma KeepsItself(t: Tcb, now: nat)
    requires Wf(t)
    ensures Keeps(t, t, now) && Sound(t, t, now)
  {
  }

  lemma KeptOn(t: Tcb, u: Tcb, v: Tcb, p: Packet, now: nat)
    requires Keeps(t, u, now) && Sound(u, v, now) && u.rcv == t.rcv
    requires !Renegotiates(u, p) ==> Keeps(u, v, now)
    ensures Sound(t, v, now)
    ensures !Renegotiates(t, p) ==> Keeps(t, v, now)
  {
    hide OptionsOf;
  }

  // ---- The other operations ----

  lemma KeepsInTurnFrom0(t: Tcb, u: Tcb, v: Tcb, now: nat)
    requires Keeps(t, u, 0) && (Armed(t) ==> Armed(u)) && Keeps(u, v, now)
    ensures Keeps(t, v, now)
  {
  }

  function Connect(t: Tcb, now: nat, w: Writer): (r: (bool, Tcb))
    requires Wf(t)
    ensures Keeps(t, r.1, now) && Quiet(t, r.1)
  {
    if t.halted then (false, t)
    else if !t.state.Listen? then (false, t.(error := InvalidState))
    else
      var t1 := Greet(t, SentSyn);
      var u := AttemptSend(t1, None, now, w);
      KeepsInTurnFrom0(t, t1, u, now);
      QuietInTurn(t, t1, u);
      (true, u)
  }

  /** Returns the number of bytes accepted, or a negative value as the source does. */
  function Send(t: Tcb, data: seq<byte>, now: nat, w: Writer): (r: (int, Tcb))
    requires Wf(t)
    ensures Keeps(t, r.1, now) && Quiet(t, r.1)
    ensures r.0 <= |data|
  {
    if t.halted then (IO_ERROR, t)
    else if !t.state.Established? then (IO_ERROR, t.(error := NotConnected))
    else if t.snd.buf.Free() == 0 then (IO_WOULD_BLOCK, t.(writeEnable := true, error := WouldBlock))
    else (Min(|data|, t.snd.buf.Free()), Pushed(t, data, now, w))
  }

  function Pushed(t: Tcb, data: seq<byte>, now: nat, w: Writer): (u: Tcb)
    requires Wf(t) && !t.state.Listen?
    ensures Keeps(t, u, now) && Quiet(t, u)
  {
    var t1 := Queued(t, data);
    var u := AttemptSend(t1, None, now, w);
    KeepsInTurn(t, t1, u, now);
    QuietInTurn(t, t1, u);
    u
  }

  function Queued(t: Tcb, data: seq<byte>): (u: Tcb)
    requires Wf(t) && !t.state.Listen?
    ensures Keeps(t, u, 1) && Quiet(t, u)
  {
    QueueOk(t.snd, data, false);
    EndIsLast(t.snd.slist, t.snd.una, t.snd.nxt, t.snd.una + t.snd.buf.len);
    t.(snd := Queue(t.snd, data, false))
  }

  const IO_ERROR: int := -1
  const IO_WOULD_BLOCK: int := -2

  /** Returns the bytes read with their number, or a negative value. */
  function Receive(t: Tcb, n: nat, now: nat, w: Writer): (r: (int, seq<byte>, Tcb))
    requires Wf(t)
    ensures Keeps(t, r.2, now)
  {
    if t.halted then (IO_ERROR, [], t)
    else if !t.state.Established? then (IO_ERROR, [], t.(error := NotConnected))
    else if t.rcv.buf.len == 0 then (IO_WOULD_BLOCK, [], t.(readEnable := true, error := WouldBlock))
    else
      var bytes := t.rcv.buf.Peek(n, 0);
      (|bytes|, bytes, TakeBytes(t, |bytes|, now, w))
  }

  /** `n` bytes are taken; when that opens a window that was shut, the peer is told. */
  function TakeBytes(t: Tcb, n: nat, now: nat, w: Writer): (u: Tcb)
    requires Wf(t) && n <= t.rcv.buf.len
    ensures Keeps(t, u, now)
  {
    var t1 := WithRcv(t, Taken(t.rcv, n, t.cc.mss), t.halted);
    KeepsAtAnyTime(t, t1, now);
    if t.rcv.wnd == 0 && Reopens(t.rcv.(buf := t.rcv.buf.ConsumeRead(n)), t.cc.mss)
    then
      var u := AttemptSend(t1, ImmediateAck, now, w);
      KeepsInTurn(t, t1, u, now);
      u
    else t1
  }

  function Close(t: Tcb, force: bool): Tcb {
    t.(shutdown := if force then Forceful else Graceful)
  }

  function NotifyMtu(t: Tcb, mtu: nat): (u: Tcb)
    requires Wf(t) && PACKET_OVERHEAD < mtu <= MAX_PACKET
    ensures Wf(u) && (Armed(t) ==> Armed(u)) && Quiet(t, u) && u.snd == t.snd
    ensures Steady(t.state, t.cc) ==> Steady(u.state, u.cc)
    ensures PACKET_OVERHEAD + 4 <= mtu ==> Keeps(t, u, 1)
  {
    var t1 := t.(cc := t.cc.(mtuAdvise := mtu));
    if t.state.Established? then t1.(cc := AdjustMtu(t1.cc)) else t1
  }

  // ---- Clock ----

  predicate Due(deadline: int, now: nat) { TimeDiff32(deadline, now) <= 0 }

  predicate RetransmitDue(t: Tcb, now: nat) { t.tm.rtoBase != 0 && Due(t.tm.rtoBase + t.tm.rto, now) }
  predicate ProbeDue(t: Tcb, now: nat) { t.snd.wnd == 0 && Due(t.tm.lastsend + t.tm.rto, now) }
  predicate AckDue(t: Tcb, now: nat) { t.tm.tAck != 0 && Due(t.tm.tAck + t.ackDelay, now) }

  /** The retransmit timer has run out: send again, one segment at a time, and back off. */
  function BackOff(t: Tcb, now: nat): (u: Tcb)
    requires Wf(t) && t.snd.una < t.snd.nxt
    ensures Keeps(t, u, now) && Quiet(t, u) && u.snd == t.snd
  {
    var limit := if t.state.Established? || t.state.Closed? then MAX_RTO else DEF_RTO;
    t.(cc := t.cc.(ssthresh := Max(InFlight(t) / 2, 2 * t.cc.mss), cwnd := t.cc.mss),
       tm := t.tm.(rto := Min(limit, t.tm.rto * 2), rtoBase := now))
  }

  function RetransmitOnTimeout(t: Tcb, now: nat, w: Writer): (r: Acked)
    requires Wf(t)
    ensures Keeps(t, r.t, now) && Quiet(t, r.t) && SameBuffer(t.snd, r.t.snd)
    ensures r.Dropped? ==> r.t.state.Closed?
  {
    if !RetransmitDue(t, now) || t.snd.slist == [] then Fine(t)
    else
      EndIsLast(t.snd.slist, t.snd.una, t.snd.nxt, t.snd.una + t.snd.buf.len);
      match Retransmit(t, now, w)
      case Dropped(t1) => Dropped(t1)
      case Fine(t1) => QuietInTurn(t, t1, BackOff(t1, now)); Fine(BackOff(t1, now))
  }

  /** A closed window is probed, or given up after 15 seconds of silence. */
  function Probe(t: Tcb, now: nat, w: Writer): (r: Acked)
    requires Wf(t)
    ensures Keeps(t, r.t, now) && Quiet(t, r.t) && r.t.snd == t.snd
    ensures r.Dropped? ==> r.t.state.Closed?
  {
    if !ProbeDue(t, now) then Fine(t)
    else if TimeDiff32(now, t.tm.lastrecv) >= 15000 then Dropped(Closedown(t, ConnectionAborted))
    else
      var t1 := SendAck(t, Wrap32(t.snd.nxt - 1), now, w);
      Fine(t1.(tm := t1.tm.(lastsend := now, rto := Min(MAX_RTO, t1.tm.rto * 2))))
  }

  function AckOnTime(t: Tcb, now: nat, w: Writer): (u: Tcb)
    requires Wf(t)
    ensures Keeps(t, u, now) && Quiet(t, u) && u.snd == t.snd
  {
    if AckDue(t, now) then SendAck(t, t.snd.nxt, now, w) else t
  }

  function NotifyClock(t: Tcb, now: nat, w: Writer): (u: Tcb)
    requires Wf(t)
    ensures Keeps(t, u, now) && Quiet(t, u)
  {
    if t.halted || t.state.Closed? then t
    else
      match RetransmitOnTimeout(t, now, w)
      case Dropped(t1) => t1
      case Fine(t1) =>
        match Probe(t1, now, w)
        case Dropped(t2) => QuietInTurn(t, t1, t2); t2
        case Fine(t2) =>
          var u := AckOnTime(t2, now, w);
          QuietInTurn(t, t1, t2);
          QuietInTurn(t, t2, u);
          KeepsInTurn(t, t1, t2, now);
          KeepsInTurn(t, t2, u, now);
          u
  }

  /** The time until `NotifyClock` is wanted again; none when the connection may be dropped. */
  function NextClock(t: Tcb, now: nat): (r: (bool, int)) {
    if t.shutdown.Forceful? then (false, 0)
    else if t.shutdown.Graceful? && (!t.state.Established? || (t.snd.buf.len == 0 && t.tm.tAck == 0)) then (false, 0)
    else if t.state.Closed? then (true, CLOSED_TIMEOUT)
    else (true, Earliest(t, now))
  }

  function Earliest(t: Tcb, now: nat): int {
    var a := DEFAULT_TIMEOUT;
    var b := if t.tm.tAck != 0 then Min(a, TimeDiff32(t.tm.tAck + t.ackDelay, now)) else a;
    var c := if t.tm.rtoBase != 0 then Min(b, TimeDiff32(t.tm.rtoBase + t.tm.rto, now)) else b;
    if t.snd.wnd == 0 then Min(c, TimeDiff32(t.tm.lastsend + t.tm.rto, now)) else c
  }
}
