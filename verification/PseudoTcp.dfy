/** The endpoint as an object: the class of extra/pseudo_tcp/pseudo_tcp.cpp with its fields, its
    circular buffers and its loops. Every method is shown to do what the function of the same
    name does to the endpoint's state, so all that is proved of the functions holds for it. */
module PseudoTcps {
  import opened Numbers
  import opened FifoBuffers
  import opened TcpSegments
  import opened TcpTypes
  import opened TcpSender
  import opened TcpReceiver
  import opened TcpEndpoint

  /** The timer has run out: what is done, and that it may be done. */
  lemma StaysInFlight(t: Tcb, now: nat, w: Writer)
    requires Wf(t) && RetransmitDue(t, now) && t.snd.slist != []
    ensures t.snd.una < t.snd.nxt
    ensures var r := TcpEndpoint.Retransmit(t, now, w);
            && Wf(r.t) && r.t.snd.una < r.t.snd.nxt
            && TcpEndpoint.RetransmitOnTimeout(t, now, w) ==
               if r.Fine? then Fine(TcpEndpoint.BackOff(r.t, now)) else r
  {
    hide TcpEndpoint.Retransmit, TcpEndpoint.BackOff, Segs, Quiet, CcOk, Steady, Roomy, Armed, Due;
  }

  class PseudoTcp {
    var conv: nat
    var state: State
    var shutdown: ShutdownType
    var error: TcpError
    var readEnable: bool
    var writeEnable: bool
    var outgoing: bool
    var nagling: bool
    var ackDelay: nat
    var supportScale: bool
    var halted: bool

    const sbuf: FifoBuffer
    var slist: seq<SSegment>
    var sndNxt: nat
    var sndWnd: nat
    var sndUna: nat
    var sndScale: nat

    const rbuf: FifoBuffer
    var rlist: seq<RSegment>
    var rcvNxt: nat
    var rcvWnd: nat
    var rcvScale: nat

    /** Segment size and congestion window; the timers; what went to the network and the user. */
    var cc: Cc
    var tm: Tm
    var io: Io

    /** The two buffers are sound and have nothing in common. */
    ghost predicate Shaped()
      reads sbuf, sbuf.buf, rbuf, rbuf.buf
    {
      && sbuf.Valid() && rbuf.Valid()
      && sbuf != rbuf && sbuf.buf != rbuf.buf
    }

    ghost function SndState(): Snd
      reads `slist, `sndNxt, `sndWnd, `sndUna, `sndScale, sbuf
    {
      Snd(slist, sbuf.ring, sndNxt, sndWnd, sndUna, sndScale)
    }

    ghost function RcvState(): Rcv
      reads `rlist, `rcvNxt, `rcvWnd, `rcvScale, rbuf
    {
      Rcv(rlist, rbuf.ring, rcvNxt, rcvWnd, rcvScale)
    }

    ghost function State(): Tcb
      reads this, sbuf, rbuf
    {
      Tcb(conv, state, shutdown, error, readEnable, writeEnable, outgoing, nagling, ackDelay, supportScale, halted,
          SndState(), RcvState(), cc, tm, io)
    }

    /** A new endpoint with buffers of the given sizes; the receive buffer takes the largest
        size up to `rcvSize` that a scaled 16-bit window can announce. */
    constructor (conv: nat, rcvSize: nat, sndSize: nat, now: nat)
      requires 4 <= rcvSize < U32 && 4 <= sndSize
      ensures Shaped() && fresh(sbuf) && fresh(sbuf.buf) && fresh(rbuf) && fresh(rbuf.buf)
      ensures State() == NewTcb(conv, rcvSize, sndSize, now)
    {
      var size, scale := ScaleDown(rcvSize);
      ScaledIsLarge(rcvSize);
      sbuf := new FifoBuffer(sndSize);
      rbuf := new FifoBuffer(size * Pow2(scale));
      this.conv := conv;
      state, shutdown, error := Listen, NoShutdown, NoError;
      readEnable, writeEnable, outgoing, nagling := true, false, false, true;
      ackDelay, supportScale, halted := DEF_ACK_DELAY, true, false;
      slist, sndNxt, sndWnd, sndUna, sndScale := [], 0, 1, 0, 0;
      rlist, rcvNxt, rcvWnd, rcvScale := [], 0, size * Pow2(scale), scale;
      cc := Cc(MIN_PACKET - PACKET_OVERHEAD, 0, 0, MAX_PACKET, size * Pow2(scale),
               2 * (MIN_PACKET - PACKET_OVERHEAD), 0, 0);
      tm := Tm(0, 0, 0, DEF_RTO, now, now, now, 0, 0, 0);
      io := Io([], 0, []);
    }

    /** The scale factor with which a size fits into 16 bits, and the size scaled down. */
    static method ScaleDown(size: nat) returns (small: nat, factor: nat)
      ensures (small, factor) == ScaledSize(size)
    {
      small, factor := size, 0;
      while small > 0xFFFF
        invariant ScaledSize(size) == (ScaledSize(small).0, ScaledSize(small).1 + factor)
      {
        small, factor := small / 2, factor + 1;
      }
    }

    // ---- Sending ----

    /** Payload of a packet: `len` bytes of the send buffer. */
    method ReadPayload(len: nat, offset: nat) returns (data: seq<byte>)
      requires Shaped() && offset + len <= sbuf.lenData
      ensures data == SndState().buf.Peek(len, offset)
    {
      data := [];
      if len > 0 {
        var ok;
        ok, data := sbuf.ReadOffset(len, offset);
      }
    }

    method NewPacket(seqno: nat, flags: nat, data: seq<byte>, now: nat) returns (p: Packet)
      ensures p == TcpSender.NewPacket(State(), seqno, flags, data, now)
    {
      p := Packet(conv, seqno, rcvNxt, flags, rcvWnd / Pow2(rcvScale) % 0x10000, now, tm.tsRecent, data);
    }

    method Emit(p: Packet, w: Writer) returns (res: WriteResult)
      requires AckHeader(p, RcvState())
      modifies `tm, `io
      ensures (res, State()) == TcpSender.Emit(old(State()), p, w)
    {
      hide Acknowledging, Quiet, AckHeader, SameClock;
      tm := tm.(tsLastack := rcvNxt);
      res := w(io.writes);
      io := io.(writes := io.writes + 1, out := if res.Success? then io.out + [p] else io.out);
    }

    /** A packet with `len` bytes of payload counts as sent. */
    method Note(len: nat, now: nat)
      modifies `tm, `outgoing
      ensures State() == Noted(old(State()), len, now)
    {
      hide Quiet, SameClock;
      tm := tm.(tAck := 0, lasttraffic := now);
      if len > 0 {
        tm := tm.(lastsend := now);
      }
      outgoing := true;
    }

    method BuildPacket(seqno: nat, flags: nat, offset: nat, len: nat, now: nat, w: Writer) returns (res: WriteResult)
      requires Shaped() && offset + len <= sbuf.lenData
      modifies `tm, `io, `outgoing
      ensures (res, State()) == TcpSender.BuildPacket(old(State()), seqno, flags, offset, len, now, w)
    {
      hide Quiet, TcpSender.NewPacket, TcpSender.Emit, Noted;
      var data := ReadPayload(len, offset);
      var p := NewPacket(seqno, flags, data, now);
      hide Ring.Peek;
      res := Emit(p, w);
      if res.Success? || len == 0 {
        Note(len, now);
        res := Success;
      }
    }

    /** Fall back through the packet sizes until a segment of `n` bytes gets smaller. */
    method LowerMss(n: nat) returns (lower: bool)
      requires CcOk(cc)
      modifies `cc
      ensures (lower, State()) == Fallback(old(State()), n)
    {
      hide Tries, SndOk, Quiet, Steady, Roomy, SameRecovery;
      while true
        invariant CcOk(cc)
        invariant TcpSender.LowerMss(cc, n) == TcpSender.LowerMss(old(cc), n)
        decreases LAST_LEVEL - cc.level
      {
        if PacketMaximum(cc.level + 1) == 0 {
          return false;
        }
        var mss := PacketMaximum(cc.level + 1) - PACKET_OVERHEAD;
        cc := cc.(level := cc.level + 1, mss := mss, cwnd := 2 * mss);
        if cc.mss < n {
          return true;
        }
      }
    }

    /** Hand `n` bytes of segment `s` to the network once. */
    method SendOnce(s: SSegment, n: nat, now: nat, w: Writer) returns (res: WriteResult)
      requires Shaped() && CcOk(cc) && sndUna <= s.seqno && s.seqno - sndUna + n <= sbuf.lenData
      modifies `tm, `io, `outgoing
      ensures (res, State()) == TcpSender.SendOnce(old(State()), s, n, now, w)
    {
      hide Tries, Quiet, TcpSender.BuildPacket;
      res := BuildPacket(s.seqno, if s.ctrl then FLAG_CTL else 0, s.seqno - sndUna, n, now, w);
    }

    /** Hand `len` bytes of segment `s` to the network, fewer when it calls the packet too large. */
    method SendSegment(s: SSegment, len: nat, now: nat, w: Writer) returns (sent: bool, n: nat)
      requires Shaped() && CcOk(cc) && 0 < len <= s.len
      requires sndUna <= s.seqno ==> s.seqno - sndUna + len <= sbuf.lenData
      modifies `tm, `io, `outgoing, `cc
      ensures SendLoop(old(State()), s, len, now, w) == if sent then Sent(n, State()) else Refused(State())
    {
      hide Quiet, SameClock, TcpSender.SendOnce, Fallback;
      n := len;
      while true
        invariant CcOk(cc) && 0 < n <= len
        invariant SendLoop(State(), s, n, now, w) == SendLoop(old(State()), s, len, now, w)
        decreases LAST_LEVEL - cc.level
      {
        if s.seqno < sndUna {
          return true, n;
        }
        var res := SendOnce(s, n, now, w);
        if res.Success? {
          return true, n;
        }
        if res.Fail? {
          return false, n;
        }
        var lower := LowerMss(n);
        if !lower {
          return false, n;
        }
        n := cc.mss;
      }
    }

    /** Cut segment `i` after `n` bytes and count its transmission. */
    method Mark(i: nat, n: nat)
      requires i < |slist| && 0 < n <= slist[i].len
      modifies `slist, `sndNxt
      ensures SndState() == TcpSender.Mark(old(SndState()), i, n)
    {
      CutHas(slist, i, n);
      if n < slist[i].len {
        slist := SplitAt(slist, i, n);
      }
      hide SplitAt;
      if slist[i].xmit == 0 {
        sndNxt := sndNxt + slist[i].len;
      }
      slist := slist[i := Count(slist[i])];
    }

    static lemma CutHas(l: seq<SSegment>, i: nat, n: nat)
      requires i < |l| && n <= l[i].len
      ensures CutTo(l, i, n)[i] == l[i].(len := n)
    {
    }

    /** `n` bytes of segment `i` are under way; the retransmit timer starts unless it runs. */
    method StartTimer(i: nat, n: nat, now: nat)
      requires Wf(State()) && Transmittable(SndState(), i) && 0 < n <= slist[i].len
      modifies `slist, `sndNxt, `tm
      ensures State() == Marked(old(State()), i, n, now)
    {
      hide Wf, Sends, Segs, TcpSegments.FirstUnsent, Armed, TcpSender.Mark;
      Mark(i, n);
      if tm.rtoBase == 0 {
        tm := tm.(rtoBase := now);
      }
    }

    method Transmit(i: nat, now: nat, w: Writer) returns (ok: bool)
      requires Shaped() && Wf(State()) && Transmittable(SndState(), i)
      modifies `tm, `io, `outgoing, `cc, `slist, `sndNxt
      ensures (ok, State()) == TcpSender.Transmit(old(State()), i, now, w)
    {
      var s := slist[i];
      if s.xmit >= (if state.Established? then 15 else 30) {
        return false;
      }
      SegmentFits(SndState(), i);
      ghost var t := State();
      var sent, n := SendSegment(s, Min(s.len, cc.mss), now, w);
      TriedIsWf(t, State());
      hide Wf, Sends, Tries, SendLoop, Marked;
      if !sent {
        return false;
      }
      StartTimer(i, n, now);
      ok := true;
    }

    /** How much may be sent next. */
    method Available() returns (n: nat)
      requires Shaped() && SndOk(SndState())
      ensures n == TcpSender.Available(State())
    {
      EndIsLast(slist, sndUna, sndNxt, sndUna + sbuf.lenData);
      var limited := if cc.dupAcks == 1 || cc.dupAcks == 2 then cc.dupAcks * cc.mss else 0;
      var window := Min(sndWnd, cc.cwnd + limited);
      var inFlight := sndNxt - sndUna;
      var useable := if inFlight < window then window - inFlight else 0;
      var buffered := sbuf.GetBuffered();
      n := Min(buffered - inFlight, cc.mss);
      if n > useable {
        n := if useable * 4 < window then 0 else useable;
      }
    }

    /** Nothing more to send: acknowledge now, later or not at all. */
    method FinishSend(flags: SendFlags, now: nat, w: Writer)
      requires Shaped()
      modifies `tm, `io, `outgoing
      ensures State() == TcpSender.FinishSend(old(State()), flags, now, w)
    {
      hide Quiet, SameClock, TcpSender.BuildPacket;
      if flags.None? {
        return;
      }
      if flags.ImmediateAck? || tm.tAck != 0 {
        var _ := BuildPacket(sndNxt, 0, 0, 0, now, w);
      } else {
        tm := tm.(tAck := now);
      }
    }

    /** The scan for the first segment not yet transmitted. */
    method FirstUnsent() returns (k: nat)
      requires TcpSegments.FirstUnsent(slist) < |slist|
      ensures k == TcpSegments.FirstUnsent(slist)
    {
      k := 0;
      while slist[k].xmit > 0
        invariant k <= TcpSegments.FirstUnsent(slist)
        decreases |slist| - k
      {
        k := k + 1;
      }
    }

    /** The next segment to transmit, broken into two if it is longer than `n`. */
    method CutNext(n: nat) returns (k: nat)
      requires Shaped() && Wf(State()) && 0 < n <= sndUna + sbuf.lenData - sndNxt
      modifies `slist
      ensures State() == TcpSender.CutNext(old(State()), n)
      ensures k == TcpSegments.FirstUnsent(slist)
    {
      CutNextOk(SndState(), n);
      hide Wf, Sends, Segs, Transmittable, Quiet;
      k := FirstUnsent();
      if n < slist[k].len {
        slist := SplitAt(slist, k, n);
      }
    }

    /** One turn of the loop of `AttemptSend`; `done` when it is left. */
    method Turn(flags: SendFlags, now: nat, w: Writer) returns (done: bool)
      requires Shaped() && Wf(State())
      modifies `tm, `io, `outgoing, `cc, `slist, `sndNxt
      ensures (done, State()) == TcpSender.Turn(old(State()), flags, now, w)
    {
      var n := Available();
      if n == 0 {
        FinishSend(flags, now, w);
        return true;
      }
      if nagling && sndNxt > sndUna && n < cc.mss {
        return true;
      }
      hide Sends, Wf, TcpSender.CutNext, TcpSender.Transmit, TcpSender.Available, TcpSender.FinishSend;
      var k := CutNext(n);
      var ok := Transmit(k, now, w);
      done := !ok;
    }

    method AttemptSend(flags: SendFlags, now: nat, w: Writer)
      requires Shaped() && Wf(State())
      modifies `tm, `io, `outgoing, `cc, `slist, `sndNxt
      ensures State() == TcpSender.AttemptSend(old(State()), flags, now, w)
    {
      Restart(now);
      ghost var t := State();
      var reply, done := flags, false;
      hide Sends, TcpSender.Turn, Restarted, Keeps;
      while !done
        invariant Wf(State())
        invariant AttemptLoop(t, flags, now, w) == if done then State() else AttemptLoop(State(), reply, now, w)
        decreases !done, Unsent(SndState())
      {
        done := Turn(reply, now, w);
        reply := None;
      }
    }

    /** After an idle time the congestion window starts again from one segment. */
    method Restart(now: nat)
      requires Wf(State())
      modifies `cc
      ensures State() == Restarted(old(State()), now)
    {
      hide Wf, Sends;
      if TimeDiff32(now, tm.lastsend) > tm.rto {
        cc := cc.(cwnd := cc.mss);
      }
    }

    // ---- Queueing ----

    method Queue(data: seq<byte>, ctrl: bool) returns (written: nat)
      requires Shaped()
      modifies `slist, sbuf, sbuf.buf
      ensures Shaped() && sbuf.buf == old(sbuf.buf)
      ensures SndState() == TcpSender.Queue(old(SndState()), data, ctrl)
      ensures written == Min(|data|, old(sbuf.ring).Free())
    {
      hide TcpSegments.Enlist, Ring.Append, Rotate;
      var space := sbuf.GetWriteRemaining();
      var len: nat := Min(|data|, space);
      Enlist(len, ctrl);
      var accepted := data[..len];
      assert |accepted| == len;
      var ok;
      ok, written := sbuf.Write(accepted);
    }

    /** Extend the last segment if it is of the same kind and untransmitted, or append one. */
    method Enlist(len: nat, ctrl: bool)
      requires Shaped()
      modifies `slist
      ensures slist == TcpSegments.Enlist(old(slist), sndUna + sbuf.lenData, len, ctrl)
    {
      var k := |slist| - 1;
      if slist != [] && slist[k].ctrl == ctrl && slist[k].xmit == 0 {
        slist := slist[..k] + [slist[k].(len := slist[k].len + len)];
      } else {
        slist := slist + [SSegment(sndUna + sbuf.lenData, len, 0, ctrl)];
      }
    }

    method QueueConnectMessage()
      requires Shaped() && Wf(State()) && slist == []
      modifies `sndWnd, `slist, sbuf, sbuf.buf
      ensures Shaped() && sbuf.buf == old(sbuf.buf)
      ensures State() == TcpEndpoint.QueueConnectMessage(old(State()))
    {
      hide Wf, Quiet, TcpSender.Queue;
      var m: seq<byte> := [CTL_CONNECT];
      if supportScale {
        m := m + [TCP_OPT_WND_SCALE, 1, rcvScale % 256];
      }
      assert m == ConnectMessage(State());
      sndWnd := |m|;
      var _ := Queue(m, true);
    }

    // ---- What the application calls ----

    method Connect(now: nat, w: Writer) returns (ok: bool)
      requires Shaped() && Wf(State())
      modifies this, sbuf, sbuf.buf
      ensures Shaped() && sbuf.buf == old(sbuf.buf)
      ensures (ok, State()) == TcpEndpoint.Connect(old(State()), now, w)
    {
      hide TcpEndpoint.Greet, TcpSender.AttemptSend, Quiet, CcOk, SndOk;
      if halted {
        return false;
      }
      if !state.Listen? {
        error := InvalidState;
        return false;
      }
      Greet(SentSyn);
      AttemptSend(None, now, w);
      ok := true;
    }

    /** Leave the state Listen with a connect message. */
    method Greet(next: State)
      requires Shaped() && Wf(State()) && state.Listen? && (next.SentSyn? || next.ReceivedSyn?)
      modifies `state, `sndWnd, `slist, sbuf, sbuf.buf
      ensures Shaped() && sbuf.buf == old(sbuf.buf)
      ensures State() == TcpEndpoint.Greet(old(State()), next)
    {
      state := next;
      hide TcpEndpoint.QueueConnectMessage, Quiet, Keeps;
      QueueConnectMessage();
    }

    method Send(data: seq<byte>, now: nat, w: Writer) returns (n: int)
      requires Shaped() && Wf(State())
      modifies this, sbuf, sbuf.buf
      ensures Shaped() && sbuf.buf == old(sbuf.buf)
      ensures (n, State()) == TcpEndpoint.Send(old(State()), data, now, w)
    {
      if halted {
        return IO_ERROR;
      }
      if !state.Established? {
        error := NotConnected;
        return IO_ERROR;
      }
      var space := sbuf.GetWriteRemaining();
      if space == 0 {
        writeEnable, error := true, WouldBlock;
        return IO_WOULD_BLOCK;
      }
      n := Push(data, now, w);
    }

    method Push(data: seq<byte>, now: nat, w: Writer) returns (n: int)
      requires Shaped() && Wf(State()) && !state.Listen?
      modifies this, sbuf, sbuf.buf
      ensures Shaped() && sbuf.buf == old(sbuf.buf)
      ensures n == Min(|data|, old(sbuf.ring).Free()) && State() == Pushed(old(State()), data, now, w)
    {
      hide Wf, Armed, Steady, Roomy, TcpSender.AttemptSend, Quiet, TcpSender.Queue, RcvState;
      ghost var t := State();
      n := Queue(data, false);
      assert State() == Queued(t, data);
      hide Keeps, Queued;
      AttemptSend(None, now, w);
    }

    method Close(force: bool)
      modifies `shutdown
      ensures State() == TcpEndpoint.Close(old(State()), force)
    {
      shutdown := if force then Forceful else Graceful;
    }

    method SetNoDelay(flag: bool)
      modifies `nagling
      ensures State() == old(State()).(nagling := !flag)
    {
      nagling := !flag;
    }

    method SetAckDelay(delay: nat)
      modifies `ackDelay
      ensures State() == old(State()).(ackDelay := delay)
    {
      ackDelay := delay;
    }

    method AdjustMtu()
      requires CcOk(cc)
      modifies `cc
      ensures cc == TcpEndpoint.AdjustMtu(old(cc))
    {
      var level, mtu := 0, cc.mtuAdvise;
      while PacketMaximum(level + 1) > 0 && PacketMaximum(level) > mtu
        invariant level <= LAST_LEVEL && MtuLevel(mtu, level) == MtuLevel(mtu, 0)
      {
        level := level + 1;
      }
      var mss := mtu - PACKET_OVERHEAD;
      cc := cc.(level := level, mss := mss, ssthresh := Max(cc.ssthresh, 2 * mss), cwnd := Max(cc.cwnd, mss));
    }

    method NotifyMtu(mtu: nat)
      requires Wf(State()) && PACKET_OVERHEAD < mtu <= MAX_PACKET
      modifies `cc
      ensures State() == TcpEndpoint.NotifyMtu(old(State()), mtu)
    {
      cc := cc.(mtuAdvise := mtu);
      hide Keeps, Quiet, TcpEndpoint.AdjustMtu, SndOk;
      if state.Established? {
        AdjustMtu();
      }
    }

    method Receive(n: nat, now: nat, w: Writer) returns (k: int, bytes: seq<byte>)
      requires Shaped() && Wf(State())
      modifies this, sbuf, sbuf.buf, rbuf
      ensures Shaped() && sbuf.buf == old(sbuf.buf) && rbuf.buf == old(rbuf.buf)
      ensures (k, bytes, State()) == TcpEndpoint.Receive(old(State()), n, now, w)
    {
      if halted {
        return IO_ERROR, [];
      }
      if !state.Established? {
        error := NotConnected;
        return IO_ERROR, [];
      }
      if rbuf.lenData == 0 {
        readEnable, error := true, WouldBlock;
        return IO_WOULD_BLOCK, [];
      }
      hide Keeps, TakeBytes;
      bytes := Take(n, now, w);
      k := |bytes|;
    }

    method Take(n: nat, now: nat, w: Writer) returns (bytes: seq<byte>)
      requires Shaped() && Wf(State()) && 0 < rbuf.lenData
      modifies this, sbuf, sbuf.buf, rbuf
      ensures Shaped() && sbuf.buf == old(sbuf.buf) && rbuf.buf == old(rbuf.buf)
      ensures bytes == old(rbuf.ring).Peek(n, 0)
      ensures State() == TakeBytes(old(State()), |bytes|, now, w)
    {
      ghost var t := State();
      var reopened;
      hide Wf, Armed, Steady, Roomy, TcpSender.AttemptSend, Taken, Reopens, Ring.Peek, SndState;
      bytes, reopened := TakeOut(n);
      assert State() == WithRcv(t, Taken(t.rcv, |bytes|, t.cc.mss), t.halted);
      hide WithRcv;
      if reopened {
        AttemptSend(ImmediateAck, now, w);
      }
    }

    /** Read bytes out of the buffer; `reopened` when that opens a window that was shut. */
    method TakeOut(n: nat) returns (bytes: seq<byte>, reopened: bool)
      requires Shaped() && 0 < rbuf.lenData
      modifies `rcvWnd, rbuf
      ensures Shaped() && rbuf.buf == old(rbuf.buf)
      ensures bytes == old(rbuf.ring).Peek(n, 0)
      ensures RcvState() == Taken(old(RcvState()), |bytes|, cc.mss)
      ensures reopened == (old(rcvWnd) == 0 && Reopens(old(RcvState()).(buf := rbuf.ring), cc.mss))
      ensures rbuf.ring == old(rbuf.ring).ConsumeRead(|bytes|)
    {
      var ok;
      ok, bytes := rbuf.Read(n);
      hide Ring.ConsumeRead;
      var shut := rcvWnd == 0;
      reopened := Reopen();
      reopened := reopened && shut;
    }

    /** The window opens again when enough has become free. */
    method Reopen() returns (reopened: bool)
      requires Shaped()
      modifies `rcvWnd
      ensures reopened == Reopens(old(RcvState()), cc.mss)
      ensures RcvState() == if reopened then old(RcvState()).(wnd := rbuf.ring.Free()) else old(RcvState())
    {
      var space := rbuf.GetWriteRemaining();
      reopened := Wrap32(space - rcvWnd) >= Min(rbuf.buf.Length / 2, cc.mss);
      if reopened {
        rcvWnd := space;
      }
    }

    // ---- The clock ----

    method Closedown(e: TcpError)
      requires Wf(State())
      modifies `state, `io
      ensures State() == TcpEndpoint.Closedown(old(State()), e)
    {
      hide Keeps, Quiet;
      state := Closed;
      io := io.(events := io.events + [ClosedWith(e)]);
    }

    /** Transmit the oldest segment in flight again; the connection ends when that fails. */
    method Retransmit(now: nat, w: Writer) returns (fine: bool)
      requires Shaped() && Wf(State()) && sndUna < sndNxt
      modifies `tm, `io, `outgoing, `cc, `slist, `sndNxt, `state
      ensures TcpEndpoint.Retransmit(old(State()), now, w) == if fine then Fine(State()) else Dropped(State())
    {
      FrontInFlight(slist, sndUna, sndNxt, sndUna + sbuf.lenData);
      hide Keeps, Quiet, TcpSender.Transmit, TcpEndpoint.Closedown, Sends;
      fine := Transmit(0, now, w);
      if !fine {
        Closedown(ConnectionAborted);
      }
    }

    method BackOff(now: nat)
      requires Shaped() && Wf(State()) && sndUna < sndNxt
      modifies `cc, `tm
      ensures State() == TcpEndpoint.BackOff(old(State()), now)
    {
      hide Keeps, Quiet, Wf;
      var limit := if state.Established? || state.Closed? then MAX_RTO else DEF_RTO;
      cc := cc.(ssthresh := Max((sndNxt - sndUna) / 2, 2 * cc.mss), cwnd := cc.mss);
      tm := tm.(rto := Min(limit, tm.rto * 2), rtoBase := now);
    }

    method RetransmitOnTimeout(now: nat, w: Writer) returns (fine: bool)
      requires Shaped() && Wf(State())
      modifies `tm, `io, `outgoing, `cc, `slist, `sndNxt, `state
      ensures TcpEndpoint.RetransmitOnTimeout(old(State()), now, w) == if fine then Fine(State()) else Dropped(State())
    {
      hide TimeDiff32;
      if tm.rtoBase == 0 || TimeDiff32(tm.rtoBase + tm.rto, now) > 0 || slist == [] {
        return true;
      }
      StaysInFlight(State(), now, w);
      hide TcpEndpoint.RetransmitOnTimeout, TcpEndpoint.Retransmit, TcpEndpoint.BackOff;
      hide Wf, Keeps, Quiet, Sends, SameBuffer;
      fine := Retransmit(now, w);
      if fine {
        BackOff(now);
      }
    }

    /** A closed window is probed, or given up after 15 seconds of silence. */
    method Probe(now: nat, w: Writer) returns (fine: bool)
      requires Shaped() && Wf(State())
      modifies `tm, `io, `outgoing, `state
      ensures TcpEndpoint.Probe(old(State()), now, w) == if fine then Fine(State()) else Dropped(State())
    {
      hide Keeps, Quiet, Wf, TcpEndpoint.Closedown, TcpSender.BuildPacket;
      if sndWnd != 0 || TimeDiff32(tm.lastsend + tm.rto, now) > 0 {
        return true;
      }
      if TimeDiff32(now, tm.lastrecv) >= 15000 {
        Closedown(ConnectionAborted);
        return false;
      }
      var _ := BuildPacket(Wrap32(sndNxt - 1), 0, 0, 0, now, w);
      tm := tm.(lastsend := now, rto := Min(MAX_RTO, tm.rto * 2));
      fine := true;
    }

    method AckOnTime(now: nat, w: Writer)
      requires Shaped() && Wf(State())
      modifies `tm, `io, `outgoing
      ensures State() == TcpEndpoint.AckOnTime(old(State()), now, w)
    {
      hide Keeps, Quiet, Wf, TcpSender.BuildPacket;
      if tm.tAck != 0 && TimeDiff32(tm.tAck + ackDelay, now) <= 0 {
        var _ := BuildPacket(sndNxt, 0, 0, 0, now, w);
      }
    }

    method NotifyClock(now: nat, w: Writer)
      requires Shaped() && Wf(State())
      modifies `tm, `io, `outgoing, `cc, `slist, `sndNxt, `state
      ensures State() == TcpEndpoint.NotifyClock(old(State()), now, w)
    {
      if halted || state.Closed? {
        return;
      }
      hide Keeps, Quiet, TcpEndpoint.RetransmitOnTimeout, TcpEndpoint.Probe, TcpEndpoint.AckOnTime;
      var fine := RetransmitOnTimeout(now, w);
      if fine {
        fine := Probe(now, w);
        if fine {
          AckOnTime(now, w);
        }
      }
    }

    /** The time until `NotifyClock` is wanted again; none when the connection may be dropped. */
    method GetNextClock(now: nat) returns (more: bool, timeout: int)
      requires Shaped()
      ensures (more, timeout) == NextClock(State(), now)
    {
      if shutdown.Forceful? {
        return false, 0;
      }
      if shutdown.Graceful? && (!state.Established? || (sbuf.lenData == 0 && tm.tAck == 0)) {
        return false, 0;
      }
      if state.Closed? {
        return true, CLOSED_TIMEOUT;
      }
      timeout := DEFAULT_TIMEOUT;
      if tm.tAck != 0 {
        timeout := Min(timeout, TimeDiff32(tm.tAck + ackDelay, now));
      }
      if tm.rtoBase != 0 {
        timeout := Min(timeout, TimeDiff32(tm.rtoBase + tm.rto, now));
      }
      if sndWnd == 0 {
        timeout := Min(timeout, TimeDiff32(tm.lastsend + tm.rto, now));
      }
      more := true;
    }

    // ---- Options of the connect message ----

    /** Read the options; the window scale is applied on the way. */
    method ReadOptions(data: seq<byte>) returns (offered: bool, broken: bool)
      modifies `sndScale
      ensures var o := ParseOptions(data, Options([], false, false));
              && offered == o.offered && broken == o.broken
              && sndScale == if o.scale == [] then old(sndScale) else o.scale[0]
    {
      offered, broken := false, false;
      var d := data;
      ghost var scale: seq<nat> := [];
      while d != [] && d[0] != TCP_OPT_EOL
        invariant sndScale == if scale == [] then old(sndScale) else scale[0]
        invariant ParseOptions(d, Options(scale, offered, broken)) == ParseOptions(data, Options([], false, false))
        invariant !broken
        decreases |d|
      {
        if d[0] == TCP_OPT_NOOP {
          d := d[1..];
        } else {
          var len: nat := if |d| > 1 then d[1] else 0;
          var rest := if |d| > 1 then d[2..] else [];
          if len > |rest| {
            return offered, true;
          }
          if d[0] == TCP_OPT_WND_SCALE {
            if len == 1 {
              sndScale := rest[0];
              scale := [rest[0]];
            }
            offered := true;
          }
          d := rest[len..];
        }
      }
    }

    method ResizeReceiveBuffer(newSize: nat)
      requires Shaped() && Wf(State()) && 4 <= newSize
      modifies `halted, `rcvScale, `rcvWnd, `cc, rbuf
      ensures Shaped() && (rbuf.buf == old(rbuf.buf) || fresh(rbuf.buf))
      ensures State() == TcpEndpoint.ResizeReceiveBuffer(old(State()), newSize)
    {
      hide Wf, TcpEndpoint.FitBuffer;
      ScaledIsLarge(newSize);
      var small, scale := ScaleDown(newSize);
      hide ScaledSize, Pow2;
      FitBuffer(small * Pow2(scale), scale);
    }

    method FitBuffer(size: nat, scale: nat)
      requires Shaped() && Wf(State()) && 4 <= size
      modifies `halted, `rcvScale, `rcvWnd, `cc, rbuf
      ensures Shaped() && (rbuf.buf == old(rbuf.buf) || fresh(rbuf.buf))
      ensures State() == TcpEndpoint.FitBuffer(old(State()), size, scale)
    {
      hide Wf, Resized, SndState, RcvState;
      var ok := ResizeTo(size, scale);
      if ok {
        cc := cc.(ssthresh := size);
      } else {
        halted := true;
      }
    }

    method ResizeTo(size: nat, scale: nat) returns (ok: bool)
      requires Shaped() && 0 < size
      modifies `rcvScale, `rcvWnd, rbuf
      ensures Shaped() && (rbuf.buf == old(rbuf.buf) || fresh(rbuf.buf))
      ensures ok == (old(RcvState()).buf.len <= size)
      ensures RcvState() == if ok then Resized(old(RcvState()), size, scale) else old(RcvState())
    {
      ok := rbuf.SetCapacity(size);
      hide Ring.Resize;
      if ok {
        rcvScale := scale;
        rcvWnd := rbuf.GetWriteRemaining();
      }
    }

    method ApplyOptions(data: seq<byte>)
      requires Shaped() && Wf(State())
      modifies `sndScale, `halted, `rcvScale, `rcvWnd, `cc, rbuf
      ensures Shaped() && (rbuf.buf == old(rbuf.buf) || fresh(rbuf.buf))
      ensures State() == TcpEndpoint.ApplyOptions(old(State()), ParseOptions(data, Options([], false, false)))
    {
      hide ParseOptions, TcpEndpoint.Reverted, CcOk, Segs, Roomy;
      var offered, broken := ReadOptions(data);
      if !broken && !offered && rcvScale > 0 {
        Revert();
      }
    }

    method Revert()
      requires Shaped() && Wf(State())
      modifies `sndScale, `halted, `rcvScale, `rcvWnd, `cc, rbuf
      ensures Shaped() && (rbuf.buf == old(rbuf.buf) || fresh(rbuf.buf))
      ensures State() == TcpEndpoint.Reverted(old(State()))
    {
      hide TcpEndpoint.ResizeReceiveBuffer, CcOk, SndOk;
      ResizeReceiveBuffer(DEFAULT_RCV_BUF_SIZE);
      sndScale := 0;
    }

    // ---- A packet arrives ----

    method Establish()
      requires Wf(State())
      modifies `state, `cc, `io
      ensures State() == TcpEndpoint.Establish(old(State()))
    {
      assert CcOk(cc);
      hide Wf, TcpEndpoint.AdjustMtu, Quiet, Steady, CcOk;
      AdjustMtu();
      state := Established;
      io := io.(events := io.events + [Opened]);
    }

    /** A connect message starts or completes the hand-shake. */
    method Shake()
      requires Shaped() && Wf(State())
      modifies `state, `cc, `io, `sndWnd, `slist, sbuf, sbuf.buf
      ensures Shaped() && sbuf.buf == old(sbuf.buf)
      ensures State() == TcpEndpoint.Shake(old(State()))
    {
      hide Keeps, Quiet, Armed, TcpEndpoint.Greet, TcpEndpoint.Establish;
      if state.Listen? {
        Greet(ReceivedSyn);
      } else if state.SentSyn? {
        Establish();
      }
    }

    /** Look at the control data of a packet. */
    method Control(p: Packet) returns (accepted: bool, connect: bool)
      requires Shaped() && Wf(State())
      modifies this, sbuf, sbuf.buf, rbuf
      ensures Shaped() && sbuf.buf == old(sbuf.buf) && (rbuf.buf == old(rbuf.buf) || fresh(rbuf.buf))
      ensures TcpEndpoint.Control(old(State()), p) == if accepted then Accept(State(), connect) else Refuse(State())
    {
      if !HasCtl(p.flags) {
        return true, false;
      }
      if p.data == [] || p.data[0] != CTL_CONNECT {
        return false, false;
      }
      hide Keeps, Quiet, Armed, TcpEndpoint.ApplyOptions, TcpEndpoint.Shake, ParseOptions, Renegotiates, Steady;
      ApplyOptions(p.data[1..]);
      if halted {
        return false, false;
      }
      Shake();
      return true, true;
    }

    method Stamp(p: Packet)
      modifies `tm
      ensures State() == TcpEndpoint.Stamp(old(State()), p)
    {
      if p.seqno <= tm.tsLastack < p.seqno + |p.data| {
        tm := tm.(tsRecent := p.tsval);
      }
    }

    /** Round-trip estimation from an echoed time stamp. */
    method Estimate(p: Packet, now: nat)
      modifies `tm
      ensures tm == EstimateFrom(old(tm), p, now)
    {
      if p.tsecr != 0 && TimeDiff32(now, p.tsecr) >= 0 {
        var rtt := TimeDiff32(now, p.tsecr);
        if tm.srtt == 0 {
          tm := tm.(srtt := rtt, rttvar := rtt / 2);
        } else {
          var err := if rtt > tm.srtt then rtt - tm.srtt else tm.srtt - rtt;
          tm := tm.(rttvar := (3 * tm.rttvar + err) / 4, srtt := (7 * tm.srtt + rtt) / 8);
        }
        tm := tm.(rto := Min(MAX_RTO, Max(MIN_RTO, tm.srtt + Max(1, 4 * tm.rttvar))));
      }
    }

    /** Acknowledged segments leave the front of the list. */
    method FreeSegments(n: nat)
      modifies `slist, `cc
      ensures (slist, cc) == (AckFree(old(slist), n, old(cc).largest).0,
                              old(cc).(largest := AckFree(old(slist), n, old(cc).largest).1))
    {
      var free: nat := n;
      while free > 0 && slist != []
        invariant cc == old(cc).(largest := cc.largest)
        invariant AckFree(slist, free, cc.largest) == AckFree(old(slist), n, old(cc).largest)
        decreases |slist| + (if free > 0 then 1 else 0)
      {
        if free < slist[0].len {
          slist := [slist[0].(len := slist[0].len - free)] + slist[1..];
          free := 0;
        } else {
          cc := cc.(largest := Max(slist[0].len, cc.largest));
          free := free - slist[0].len;
          slist := slist[1..];
        }
      }
    }

    /** Acknowledged bytes leave the send buffer and the segment list. */
    method FreeBytes(ack: nat, wnd: nat)
      requires Shaped() && SndOk(SndState()) && sndUna < ack <= sndNxt
      modifies `sndWnd, `sndUna, `slist, `cc, sbuf
      ensures Shaped() && sbuf.buf == old(sbuf.buf)
      ensures cc == old(cc).(largest := cc.largest)
      ensures (SndState(), cc.largest) == Freed(old(SndState()), ack, wnd, old(cc).largest)
    {
      EndIsLast(slist, sndUna, sndNxt, sndUna + sbuf.lenData);
      hide AckFree, Ring.ConsumeRead, SndOk;
      var acked := ack - sndUna;
      sndWnd, sndUna := wnd, ack;
      sbuf.ConsumeReadData(acked);
      FreeSegments(acked);
    }

    method ReleaseAcked(ack: nat, wnd: nat)
      requires Shaped() && SndOk(SndState()) && sndUna < ack <= sndNxt
      modifies `sndWnd, `sndUna, `slist, `cc, sbuf
      ensures Shaped() && sbuf.buf == old(sbuf.buf)
      ensures State() == WithFreed(old(State()), ack, wnd)
    {
      hide SndOk, Freed;
      FreeBytes(ack, wnd);
    }

    method Rearm(now: nat)
      modifies `tm
      ensures State() == Rearmed(old(State()), now)
    {
      tm := tm.(rtoBase := if sndUna == sndNxt then 0 else now);
    }

    method AckBytes(p: Packet, now: nat)
      requires Shaped() && Wf(State()) && sndUna < p.ack <= sndNxt
      modifies `sndWnd, `sndUna, `tm, `slist, `cc, sbuf
      ensures Shaped() && sbuf.buf == old(sbuf.buf)
      ensures State() == TcpEndpoint.AckBytes(old(State()), p, now)
    {
      hide Keeps, Quiet, WindowOf, WithFreed, SndOk, Rearmed;
      ReleaseAcked(p.ack, WindowOf(p, sndScale));
      Rearm(now);
    }

    method NewAck(p: Packet, now: nat, w: Writer) returns (fine: bool)
      requires Shaped() && Wf(State()) && sndUna < p.ack <= sndNxt
      modifies `sndWnd, `sndUna, `sndNxt, `tm, `slist, `cc, `io, `outgoing, `state, sbuf
      ensures Shaped() && sbuf.buf == old(sbuf.buf)
      ensures TcpEndpoint.NewAck(old(State()), p, now, w) == if fine then Fine(State()) else Dropped(State())
    {
      hide Quiet, Wf, Armed, Steady, TcpEndpoint.AckBytes, TcpEndpoint.Progress, EstimateFrom;
      var acked := p.ack - sndUna;
      Measure(p, now);
      AckBytes(p, now);
      fine := Progress(acked, now, w);
    }

    method Measure(p: Packet, now: nat)
      requires Wf(State())
      modifies `tm
      ensures Wf(State()) && State() == old(State()).(tm := EstimateFrom(old(State()).tm, p, now))
    {
      EstimateKeepsWf(State(), p, now);
      hide EstimateFrom, Wf;
      Estimate(p, now);
    }

    static lemma EstimateKeepsWf(t: Tcb, p: Packet, now: nat)
      requires Wf(t)
      ensures Wf(t.(tm := EstimateFrom(t.tm, p, now)))
    {
    }

    /** Congestion control after `n` bytes have been acknowledged. */
    method Progress(n: nat, now: nat, w: Writer) returns (fine: bool)
      requires Shaped() && Wf(State())
      modifies `sndNxt, `tm, `slist, `cc, `io, `outgoing, `state
      ensures TcpEndpoint.Progress(old(State()), n, now, w) == if fine then Fine(State()) else Dropped(State())
    {
      hide Keeps, Quiet, TcpEndpoint.Retransmit, Sends, Segs, SameBuffer;
      EndIsLast(slist, sndUna, sndNxt, sndUna + sbuf.lenData);
      if cc.dupAcks < 3 {
        cc := cc.(dupAcks := 0,
                  cwnd := if cc.cwnd < cc.ssthresh then cc.cwnd + cc.mss
                          else cc.cwnd + Max(1, cc.mss * cc.mss / cc.cwnd));
        return true;
      }
      if sndUna >= cc.recover {
        cc := cc.(cwnd := Min(cc.ssthresh, sndNxt - sndUna + cc.mss), dupAcks := 0);
        return true;
      }
      fine := Retransmit(now, w);
      if fine {
        cc := Deflate(cc, n);
      }
    }

    method DuplicateAck(p: Packet, now: nat, w: Writer) returns (fine: bool)
      requires Shaped() && Wf(State()) && p.ack == sndUna
      modifies `sndWnd, `sndNxt, `tm, `slist, `cc, `io, `outgoing, `state
      ensures TcpEndpoint.DuplicateAck(old(State()), p, now, w) == if fine then Fine(State()) else Dropped(State())
    {
      hide Keeps, Quiet, TcpEndpoint.Repeated, WindowOf;
      sndWnd := WindowOf(p, sndScale);
      fine := Repeated(p.data == [], now, w);
    }

    method Repeated(bare: bool, now: nat, w: Writer) returns (fine: bool)
      requires Shaped() && Wf(State())
      modifies `sndNxt, `tm, `slist, `cc, `io, `outgoing, `state
      ensures TcpEndpoint.Repeated(old(State()), bare, now, w) == if fine then Fine(State()) else Dropped(State())
    {
      hide Keeps, Quiet, TcpEndpoint.CountDuplicate, SameBuffer;
      if !bare {
        return true;
      }
      if sndUna == sndNxt {
        cc := cc.(dupAcks := 0);
        return true;
      }
      cc := cc.(dupAcks := (cc.dupAcks + 1) % 256);
      fine := CountDuplicate(now, w);
    }

    method CountDuplicate(now: nat, w: Writer) returns (fine: bool)
      requires Shaped() && Wf(State()) && sndUna != sndNxt
      modifies `sndNxt, `tm, `slist, `cc, `io, `outgoing, `state
      ensures TcpEndpoint.CountDuplicate(old(State()), now, w) == if fine then Fine(State()) else Dropped(State())
    {
      EndIsLast(slist, sndUna, sndNxt, sndUna + sbuf.lenData);
      hide Keeps, Quiet, TcpEndpoint.Retransmit, TcpEndpoint.EnterRecovery, Sends, Segs, SameBuffer;
      if cc.dupAcks == 3 {
        fine := Retransmit(now, w);
        if fine {
          EnterRecovery();
        }
        return;
      }
      if cc.dupAcks > 3 {
        cc := cc.(cwnd := cc.cwnd + cc.mss);
      }
      fine := true;
    }

    /** Fast retransmit: half of what is in flight becomes the threshold. */
    method EnterRecovery()
      requires Shaped() && Wf(State())
      modifies `cc
      ensures State() == TcpEndpoint.EnterRecovery(old(State()))
    {
      EndIsLast(slist, sndUna, sndNxt, sndUna + sbuf.lenData);
      hide Keeps, Quiet, Wf, Segs;
      var ssthresh := Max((sndNxt - sndUna) / 2, 2 * cc.mss);
      cc := cc.(recover := sndNxt, ssthresh := ssthresh, cwnd := ssthresh + 3 * cc.mss);
    }

    method Acknowledge(p: Packet, now: nat, w: Writer) returns (fine: bool)
      requires Shaped() && Wf(State())
      modifies `sndWnd, `sndUna, `sndNxt, `tm, `slist, `cc, `io, `outgoing, `state, sbuf
      ensures Shaped() && sbuf.buf == old(sbuf.buf)
      ensures TcpEndpoint.Acknowledge(old(State()), p, now, w) == if fine then Fine(State()) else Dropped(State())
    {
      hide Keeps, Quiet, TcpEndpoint.NewAck, TcpEndpoint.DuplicateAck, Wf;
      if sndUna < p.ack <= sndNxt {
        fine := NewAck(p, now, w);
      } else if p.ack == sndUna {
        fine := DuplicateAck(p, now, w);
      } else {
        fine := true;
      }
    }

    /** The last message of the hand-shake may have come; the user hears of room to write. */
    method AfterAck(connect: bool)
      requires Shaped() && Wf(State())
      modifies `state, `cc, `io, `writeEnable
      ensures State() == TcpEndpoint.AfterAck(old(State()), connect)
    {
      hide Keeps, Quiet, Wf, TcpEndpoint.Establish, TcpEndpoint.Refill, Steady;
      if state.ReceivedSyn? && !connect {
        Establish();
      }
      Refill();
    }

    method Refill()
      requires Shaped() && Wf(State())
      modifies `io, `writeEnable
      ensures State() == TcpEndpoint.Refill(old(State()))
    {
      hide Keeps, Quiet, Wf;
      if writeEnable && sbuf.lenData < (sbuf.buf.Length + rbuf.buf.Length) / 2 {
        writeEnable := false;
        io := io.(events := io.events + [Writeable]);
      }
    }

    /** A stretch received out of order goes into the list in front of the first not below it. */
    method Insert(s: RSegment)
      modifies `rlist
      ensures rlist == TcpReceiver.Insert(old(rlist), s)
    {
      var i := 0;
      while i < |rlist| && rlist[i].seqno < s.seqno
        invariant i <= |rlist| && forall k :: 0 <= k < i ==> rlist[k].seqno < s.seqno
      {
        i := i + 1;
      }
      InsertedAt(rlist, i, s);
      rlist := rlist[..i] + ([s] + rlist[i..]);
    }

    static lemma {:induction false} InsertedAt(l: seq<RSegment>, i: nat, s: RSegment)
      requires i <= |l| && (i < |l| ==> s.seqno <= l[i].seqno)
      requires forall k :: 0 <= k < i ==> l[k].seqno < s.seqno
      ensures TcpReceiver.Insert(l, s) == l[..i] + ([s] + l[i..])
    {
      if i > 0 {
        InsertedAt(l[1..], i - 1, s);
        assert [l[0]] + l[1..][..i - 1] == l[..i];
      }
    }

    method Advance(n: nat)
      requires Shaped() && n <= rbuf.ring.Free()
      modifies `rcvNxt, `rcvWnd, rbuf
      ensures Shaped() && rbuf.buf == old(rbuf.buf)
      ensures RcvState() == TcpReceiver.Advance(old(RcvState()), n)
    {
      rbuf.ConsumeWriteBuffer(n);
      rcvNxt, rcvWnd := rcvNxt + n, Wrap32(rcvWnd - n);
    }

    /** Stretches that have come into reach are taken off the list. */
    method Recover() returns (found: bool, failed: bool)
      requires Shaped()
      modifies `rlist, `rcvNxt, `rcvWnd, rbuf
      ensures Shaped() && rbuf.buf == old(rbuf.buf)
      ensures TcpReceiver.Recover(old(RcvState())) == Recovery(RcvState(), found, failed)
    {
      hide TcpReceiver.Advance;
      found, failed := false, false;
      while rlist != [] && rlist[0].seqno <= rcvNxt
        invariant Shaped() && rbuf.buf == old(rbuf.buf)
        invariant var v := TcpReceiver.Recover(RcvState());
                  TcpReceiver.Recover(old(RcvState())) == v.(found := found || v.found)
        decreases |rlist|
      {
        var s := rlist[0];
        if s.seqno + s.len > rcvNxt {
          var n := s.seqno + s.len - rcvNxt;
          var space := rbuf.GetWriteRemaining();
          if n > space {
            return found, true;
          }
          rlist := rlist[1..];
          Advance(n);
          found := true;
        } else {
          rlist := rlist[1..];
        }
      }
    }

    /** A control segment, or data that nobody wants any more, passes. */
    method PlaceControl(at: nat, n: nat) returns (found: bool, failed: bool)
      requires Shaped() && n <= rbuf.ring.Free()
      modifies `rlist, `rcvNxt, `rcvWnd, rbuf
      ensures Shaped() && rbuf.buf == old(rbuf.buf)
      ensures TcpReceiver.PlaceControl(old(RcvState()), at, n) == Arrival(RcvState(), true, found, found, failed)
    {
      hide TcpReceiver.Recover;
      if at != rcvNxt {
        return false, false;
      }
      rcvNxt := rcvNxt + n;
      if rbuf.lenData != 0 {
        return false, false;
      }
      rbuf.ConsumeWriteBuffer(n);
      rbuf.ConsumeReadData(n);
      assert RcvState() == Skip(old(RcvState()), n);
      hide Skip;
      found, failed := Recover();
    }

    method Place(at: nat, data: seq<byte>, ignore: bool)
        returns (taken: bool, newData: bool, recovered: bool, failed: bool)
      requires Shaped()
      requires data != [] ==> rcvNxt <= at && at - rcvNxt + |data| <= rbuf.ring.Free()
      modifies `rlist, `rcvNxt, `rcvWnd, rbuf, rbuf.buf
      ensures Shaped() && rbuf.buf == old(rbuf.buf)
      ensures TcpReceiver.Place(old(RcvState()), at, data, ignore) ==
          Arrival(RcvState(), taken, newData, recovered, failed)
    {
      hide TcpReceiver.Recover, TcpReceiver.PlaceControl, Ring.Put, TcpReceiver.Insert, TcpReceiver.Advance;
      taken, newData, recovered, failed := true, false, false, false;
      if data == [] {
        return;
      }
      if ignore {
        recovered, failed := PlaceControl(at, |data|);
        newData := recovered;
        return;
      }
      var ok, copied := rbuf.WriteOffset(data, at - rcvNxt);
      if !ok {
        taken := false;
        return;
      }
      if at == rcvNxt {
        Advance(|data|);
        recovered, failed := Recover();
        newData := true;
      } else {
        Insert(RSegment(at, |data|));
      }
    }

    /** Cut the payload to what is new and what fits, and put it into the buffer. */
    method Arrive(seqno: nat, payload: seq<byte>, ignore: bool)
        returns (taken: bool, newData: bool, recovered: bool, failed: bool)
      requires Shaped()
      modifies `rlist, `rcvNxt, `rcvWnd, rbuf, rbuf.buf
      ensures Shaped() && rbuf.buf == old(rbuf.buf)
      ensures TcpReceiver.Arrive(old(RcvState()), seqno, payload, ignore) ==
          Arrival(RcvState(), taken, newData, recovered, failed)
    {
      var at, data := seqno, payload;
      if at < rcvNxt {
        var known := rcvNxt - at;
        if known < |data| {
          at, data := rcvNxt, data[known..];
        } else {
          data := [];
        }
      }
      var space := rbuf.GetWriteRemaining();
      if data != [] && at + |data| - rcvNxt > space {
        var over := at + |data| - rcvNxt - space;
        data := if over < |data| then data[..|data| - over] else [];
      }
      assert (at, data) == Trim(RcvState(), seqno, payload);
      hide TcpReceiver.Place, Trim;
      taken, newData, recovered, failed := Place(at, data, ignore);
    }

    method Reply(p: Packet) returns (flags: SendFlags)
      ensures flags == ReplyFlags(State(), p)
    {
      flags := if p.seqno != rcvNxt then ImmediateAck
               else if p.data == [] then None
               else if ackDelay == 0 then ImmediateAck
               else DelayedAck;
    }

    method Deliver(newData: bool)
      requires Wf(State())
      modifies `readEnable, `io
      ensures State() == Delivered(old(State()), newData)
    {
      hide Keeps, Quiet, Wf;
      if newData && readEnable {
        readEnable := false;
        io := io.(events := io.events + [Readable]);
      }
    }

    /** The payload arrives in the buffer. */
    method TakeIn(p: Packet) returns (taken: bool, newData: bool, recovered: bool)
      requires Shaped() && Wf(State())
      modifies `halted, `rlist, `rcvNxt, `rcvWnd, rbuf, rbuf.buf
      ensures Shaped() && rbuf.buf == old(rbuf.buf)
      ensures var v := ArriveAt(old(State()), p);
              State() == WithRcv(old(State()), v.rcv, v.halted)
              && halted == v.halted && taken == v.taken && newData == v.newData && recovered == v.recovered
    {
      hide Keeps, Wf, TcpReceiver.Arrive;
      var failed;
      taken, newData, recovered, failed := Arrive(p.seqno, p.data, HasCtl(p.flags) || !shutdown.NoShutdown?);
      halted := failed;
    }

    /** The payload, the reply and the notification of new data. */
    method Payload(p: Packet, now: nat, w: Writer) returns (ok: bool)
      requires Shaped() && Wf(State())
      modifies this, rbuf, rbuf.buf
      ensures Shaped() && rbuf.buf == old(rbuf.buf)
      ensures (ok, State()) == TcpEndpoint.Payload(old(State()), p, now, w)
    {
      hide Wf, Armed, Steady, Sends, ArriveAt, WithRcv, ReplyFlags, Delivered, TcpSender.AttemptSend;
      var flags := Reply(p);
      var taken, newData, recovered := TakeIn(p);
      if halted || !taken {
        return false;
      }
      AttemptSend(if recovered then ImmediateAck else flags, now, w);
      Deliver(newData);
      ok := true;
    }

    /** What follows the acknowledgment in a packet. */
    method Rest(p: Packet, connect: bool, now: nat, w: Writer) returns (ok: bool)
      requires Shaped() && Wf(State())
      modifies this, rbuf, rbuf.buf
      ensures Shaped() && rbuf.buf == old(rbuf.buf)
      ensures (ok, State()) == TcpEndpoint.Rest(old(State()), p, connect, now, w)
    {
      hide Quiet, Wf, Armed, Steady, TcpEndpoint.AfterAck, TcpEndpoint.Payload;
      AfterAck(connect);
      ok := Payload(p, now, w);
    }

    /** What follows the control data of a packet. */
    method Answer(p: Packet, connect: bool, now: nat, w: Writer) returns (ok: bool)
      requires Shaped() && Wf(State())
      modifies this, sbuf, rbuf, rbuf.buf
      ensures Shaped() && sbuf.buf == old(sbuf.buf) && rbuf.buf == old(rbuf.buf)
      ensures (ok, State()) == TcpEndpoint.Answer(old(State()), p, connect, now, w)
    {
      StampKeepsWf(State(), p);
      hide Quiet, Wf, Armed, Steady, TcpEndpoint.Stamp, TcpEndpoint.Acknowledge, TcpEndpoint.Rest;
      Stamp(p);
      var fine := Acknowledge(p, now, w);
      if !fine {
        return false;
      }
      ok := Rest(p, connect, now, w);
    }

    static lemma StampKeepsWf(t: Tcb, p: Packet)
      requires Wf(t)
      ensures Wf(TcpEndpoint.Stamp(t, p))
    {
    }

    method Handle(p: Packet, now: nat, w: Writer) returns (ok: bool)
      requires Shaped() && Wf(State())
      modifies this, sbuf, sbuf.buf, rbuf, rbuf.buf
      ensures Shaped() && sbuf.buf == old(sbuf.buf) && (rbuf.buf == old(rbuf.buf) || fresh(rbuf.buf))
      ensures (ok, State()) == TcpEndpoint.Handle(old(State()), p, now, w)
    {
      hide Keeps, Quiet, Wf, TcpEndpoint.Control, TcpEndpoint.Answer, Renegotiates, Sound, Armed, Steady;
      var accepted, connect := Control(p);
      if !accepted {
        return false;
      }
      ok := Answer(p, connect, now, w);
    }

    method NoteArrival(now: nat)
      requires Wf(State())
      modifies `tm, `outgoing
      ensures State() == Received(old(State()), now)
    {
      hide Keeps, Wf;
      tm := tm.(lasttraffic := now, lastrecv := now);
      outgoing := false;
    }

    /** A packet arrives. */
    method Process(p: Packet, now: nat, w: Writer) returns (ok: bool)
      requires Shaped() && Wf(State())
      modifies this, sbuf, sbuf.buf, rbuf, rbuf.buf
      ensures Shaped() && sbuf.buf == old(sbuf.buf) && (rbuf.buf == old(rbuf.buf) || fresh(rbuf.buf))
      ensures (ok, State()) == TcpEndpoint.Process(old(State()), p, now, w)
    {
      hide Quiet, Wf, Armed, Steady, Received, TcpEndpoint.Closedown, TcpEndpoint.Handle, Renegotiates;
      if halted || p.conv != conv {
        return false;
      }
      NoteArrival(now);
      if state.Closed? {
        return false;
      }
      if HasRst(p.flags) {
        Closedown(ConnectionReset);
        return false;
      }
      ok := Handle(p, now, w);
    }
  }
}
