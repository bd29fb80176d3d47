/** Runs of one endpoint, with any packets, also such as no peer would send; and what sending,
    which ends most calls, can change. */
module TcpRuns {
  import opened Numbers
  import opened FifoBuffers
  import opened TcpSegments
  import opened TcpTypes
  import opened TcpSender
  import opened TcpReceiver
  import opened TcpEndpoint
  import opened TcpDelivery
  import opened TcpSystem
  import opened TcpPolicies

  /** The endpoint after one call; an MTU that leaves no room for payload is not advised. */
  function Then(t: Tcb, op: Op): (u: Tcb)
    requires Wf(t)
    ensures Wf(u)
  {
    if Advisable(op) then Act(Half(t, [], []), op).t else t
  }

  predicate Advisable(op: Op) { op.DoMtu? ==> PACKET_OVERHEAD < op.mtu <= MAX_PACKET }

  function After(t: Tcb, ops: seq<Op>): (u: Tcb)
    requires Wf(t)
    ensures Wf(u)
  {
    if ops == [] then t else Then(After(t, ops[..|ops| - 1]), ops[|ops| - 1])
  }

  lemma ThenProcesses(t: Tcb, op: Op)
    requires Wf(t) && op.Arrives?
    ensures Then(t, op) == Process(t, op.p, op.now, op.w).1
  {
    hide Process;
  }

  // ---- What sending changes ----

  /** The segment size may have fallen, which sets the congestion window anew. */
  ghost predicate Resizes(c: Cc, d: Cc) {
    && SameRecovery(c, d) && d.largest == c.largest && c.level <= d.level
    && (d.level == c.level ==> d == c)
    && (d.level > c.level ==> d.cwnd == 2 * d.mss)
  }

  predicate SameEstimate(a: Tm, b: Tm) { b.srtt == a.srtt && b.rttvar == a.rttvar }

  lemma {:induction false} LowerResizes(c: Cc, n: nat)
    requires CcOk(c)
    ensures Resizes(c, LowerMss(c, n).1)
    decreases LAST_LEVEL - c.level
  {
    hide Steady, Roomy;
    if PacketMaximum(c.level + 1) != 0 {
      var mss := PacketMaximum(c.level + 1) - PACKET_OVERHEAD;
      var d := c.(level := c.level + 1, mss := mss, cwnd := 2 * mss);
      if mss >= n {
        LowerResizes(d, n);
      }
    }
  }

  lemma {:induction false} SendLoopResizes(t: Tcb, s: SSegment, n: nat, now: nat, w: Writer)
    requires t.snd.buf.Valid() && CcOk(t.cc) && 0 < n <= s.len && n <= t.cc.mss
    requires t.snd.una <= s.seqno ==> s.seqno - t.snd.una + n <= t.snd.buf.len
    ensures var r := SendLoop(t, s, n, now, w);
            && Resizes(t.cc, r.t.cc) && SameEstimate(t.tm, r.t.tm)
            && (r.Sent? ==> r.t.cc.mss <= t.cc.mss)
    decreases LAST_LEVEL - t.cc.level
  {
    hide SendOnce, Quiet;
    if t.snd.una <= s.seqno {
      var (res, t1) := SendOnce(t, s, n, now, w);
      if res.TooLarge? {
        LowerResizes(t1.cc, n);
        var (lower, t2) := Fallback(t1, n);
        if lower {
          SendLoopResizes(t2, s, t2.cc.mss, now, w);
        }
      }
    }
  }

  /** `p` carries nothing, or bytes from `lo` on that end at most at `hi`. */
  predicate BareOrWithin(p: Packet, lo: nat, hi: nat) {
    p.data == [] || (lo <= p.seqno && p.seqno + |p.data| <= hi)
  }

  /** More packets are on the network, each bare or within the bounds. */
  ghost predicate PutsOut(out: seq<Packet>, more: seq<Packet>, lo: nat, hi: nat) {
    out <= more && forall k :: |out| <= k < |more| ==> BareOrWithin(more[k], lo, hi)
  }

  lemma PutsOutInTurn(a: seq<Packet>, b: seq<Packet>, c: seq<Packet>, lo: nat, hi: nat, lo': nat, hi': nat)
    requires PutsOut(a, b, lo, hi) && PutsOut(b, c, lo', hi') && lo <= lo' && hi' <= hi
    ensures PutsOut(a, c, lo, hi)
  {
  }

  /** How far may be sent at most: up to the peer's window, and up to the congestion window, or
      the two segments that a fallback to a smaller size allows. */
  function Reach(t: Tcb): nat {
    var limited := if t.cc.dupAcks == 1 || t.cc.dupAcks == 2 then t.cc.dupAcks * t.cc.mss else 0;
    t.snd.una + Min(t.snd.wnd, Max(t.cc.cwnd, 2 * t.cc.mss) + limited)
  }

  /** A round of sending: new data within reach, bare acknowledgments, and smaller segments. */
  ghost predicate SendsNew(t: Tcb, u: Tcb) {
    && Resizes(t.cc, u.cc) && SameEstimate(t.tm, u.tm) && SameBuffer(t.snd, u.snd)
    && PutsOut(t.io.out, u.io.out, t.snd.nxt, Reach(t))
  }

  lemma Timeses(k: nat, a: nat, b: nat)
    requires a <= b
    ensures k * a <= k * b
  {
  }

  lemma ReachShrinks(t: Tcb, u: Tcb)
    requires Resizes(t.cc, u.cc) && SameBuffer(t.snd, u.snd) && u.cc.mss <= t.cc.mss
    ensures Reach(u) <= Reach(t)
  {
    Timeses(t.cc.dupAcks, u.cc.mss, t.cc.mss);
  }

  lemma SendsNewInTurn(t: Tcb, u: Tcb, v: Tcb)
    requires SendsNew(t, u) && SendsNew(u, v) && u.cc.mss <= t.cc.mss
    ensures SendsNew(t, v)
  {
    ReachShrinks(t, u);
    hide Reach;
    PutsOutInTurn(t.io.out, u.io.out, v.io.out, t.snd.nxt, Reach(t), u.snd.nxt, Reach(u));
    hide PutsOut;
  }

  lemma AvailableIsUseable(t: Tcb)
    requires Wf(t) && Available(t) > 0
    ensures t.snd.nxt + Available(t) <= Reach(t)
  {
    EndIsLast(t.snd.slist, t.snd.una, t.snd.nxt, t.snd.una + t.snd.buf.len);
  }

  lemma LoopPutsOut(t: Tcb, s: SSegment, n: nat, now: nat, w: Writer, hi: nat)
    requires t.snd.buf.Valid() && CcOk(t.cc) && 0 < n <= s.len && n <= t.cc.mss
    requires t.snd.una <= s.seqno && s.seqno - t.snd.una + n <= t.snd.buf.len && s.seqno + n <= hi
    ensures var r := SendLoop(t, s, n, now, w);
            && Resizes(t.cc, r.t.cc) && SameEstimate(t.tm, r.t.tm) && (r.Sent? ==> r.t.cc.mss <= t.cc.mss)
            && r.t.snd == t.snd && PutsOut(t.io.out, r.t.io.out, s.seqno, hi)
  {
    SendLoopOut(t, s, n, now, w);
    SendLoopResizes(t, s, n, now, w);
    hide SendLoop, Resizes, Quiet;
  }

  /** The first unsent segment is transmitted. */
  lemma TransmitSendsNew(t: Tcb, now: nat, w: Writer)
    requires Wf(t) && Transmittable(t.snd, FirstUnsent(t.snd.slist))
    requires t.snd.nxt + Min(t.snd.slist[FirstUnsent(t.snd.slist)].len, t.cc.mss) <= Reach(t)
    ensures var (ok, u) := Transmit(t, FirstUnsent(t.snd.slist), now, w);
            SendsNew(t, u) && (ok ==> u.cc.mss <= t.cc.mss)
  {
    var i := FirstUnsent(t.snd.slist);
    var s := t.snd.slist[i];
    var n := Min(s.len, t.cc.mss);
    UnsentFits(t.snd.slist, t.snd.una, t.snd.nxt, t.snd.una + t.snd.buf.len, i);
    EndIsLast(t.snd.slist, t.snd.una, t.snd.nxt, t.snd.una + t.snd.buf.len);
    hide SendLoop, Segs, Reach, Resizes, Quiet, PutsOut, BareOrWithin, SameBuffer;
    LoopPutsOut(t, s, n, now, w, Reach(t));
  }

  lemma SendNextSendsNew(t: Tcb, now: nat, w: Writer)
    requires Wf(t) && Available(t) > 0
    ensures var (ok, u) := SendNext(t, Available(t), now, w);
            SendsNew(t, u) && (ok ==> u.cc.mss <= t.cc.mss)
  {
    var n := Available(t);
    AvailableIsUseable(t);
    CutNextOk(t.snd, n);
    hide Available, Transmit, Segs, Resizes, PutsOut;
    var u := CutNext(t, n);
    assert Reach(u) == Reach(t);
    TransmitSendsNew(u, now, w);
  }

  lemma FinishSendsNew(t: Tcb, flags: SendFlags, now: nat, w: Writer)
    requires Wf(t)
    ensures SendsNew(t, FinishSend(t, flags, now, w))
  {
    assert t.snd.buf.Valid();
    hide SndOk, CcOk, Wf, Reach, Acknowledging, Quiet, BareOrWithin;
    BareIsBare(NewPacket(t, t.snd.nxt, 0, t.snd.buf.Peek(0, 0), now), t.snd.nxt, Reach(t));
    hide NewPacket;
  }

  lemma BareIsBare(p: Packet, lo: nat, hi: nat)
    requires p.data == []
    ensures BareOrWithin(p, lo, hi)
  {
  }

  lemma TurnSendsNew(t: Tcb, flags: SendFlags, now: nat, w: Writer)
    requires Wf(t)
    ensures var (done, u) := Turn(t, flags, now, w);
            SendsNew(t, u) && (!done ==> u.cc.mss <= t.cc.mss)
  {
    FinishSendsNew(t, flags, now, w);
    hide Available, FinishSend, SendNext, CcOk, Sends, Reach;
    if Available(t) > 0 {
      SendNextSendsNew(t, now, w);
    }
  }

  lemma {:induction false} LoopSendsNew(t: Tcb, flags: SendFlags, now: nat, w: Writer)
    requires Wf(t)
    ensures SendsNew(t, AttemptLoop(t, flags, now, w))
    decreases Unsent(t.snd)
  {
    hide Turn, Sends, SendsNew, CcOk;
    TurnSendsNew(t, flags, now, w);
    var (done, u) := Turn(t, flags, now, w);
    if !done {
      LoopSendsNew(u, None, now, w);
      SendsNewInTurn(t, u, AttemptLoop(u, None, now, w));
    }
  }

  /** The time since data were sent last is longer than the retransmission timeout. */
  predicate Idle(t: Tcb, now: nat) { TimeDiff32(now, t.tm.lastsend) > t.tm.rto }

  /** What `attemptSend` changes, from the idle restart on. */
  lemma AttemptSendsNew(t: Tcb, flags: SendFlags, now: nat, w: Writer)
    requires Wf(t)
    ensures Restarted(t, now) == if Idle(t, now) then t.(cc := t.cc.(cwnd := t.cc.mss)) else t
    ensures SendsNew(Restarted(t, now), AttemptSend(t, flags, now, w))
  {
    hide AttemptLoop, SendsNew;
    LoopSendsNew(Restarted(t, now), flags, now, w);
  }

  // ---- What only an acknowledgment changes ----

  /** The counts of recovery, the estimate and what is acknowledged stay as they are; more may be
      in flight, and a closed connection stays closed. */
  ghost predicate SameAcks(t: Tcb, u: Tcb) {
    && u.cc.dupAcks == t.cc.dupAcks && u.cc.recover == t.cc.recover && SameEstimate(t.tm, u.tm)
    && u.snd.una == t.snd.una && t.snd.nxt <= u.snd.nxt
    && (t.state.Closed? ==> u.state.Closed?)
  }

  lemma SameAcksInTurn(t: Tcb, u: Tcb, v: Tcb)
    requires SameAcks(t, u) && SameAcks(u, v)
    ensures SameAcks(t, v)
  {
  }

  lemma SendingSameAcks(t: Tcb, flags: SendFlags, now: nat, w: Writer)
    requires Wf(t)
    ensures SameAcks(t, AttemptSend(t, flags, now, w))
  {
    AttemptSendsNew(t, flags, now, w);
    hide Restarted, AttemptSend, PutsOut, Reach, Segs, CcOk, Idle;
  }

  lemma RetransmitResizes(t: Tcb, now: nat, w: Writer)
    requires Wf(t) && t.snd.una < t.snd.nxt
    ensures var r := Retransmit(t, now, w);
            Resizes(t.cc, r.t.cc) && SameEstimate(t.tm, r.t.tm) && SameAcks(t, r.t)
  {
    FrontInFlight(t.snd.slist, t.snd.una, t.snd.nxt, t.snd.una + t.snd.buf.len);
    TransmitResizes(t, 0, now, w);
    hide Transmit, SndOk, CcOk, Quiet, Resizes, Steady;
  }

  lemma TransmitResizes(t: Tcb, i: nat, now: nat, w: Writer)
    requires Wf(t) && Transmittable(t.snd, i)
    ensures var u := Transmit(t, i, now, w).1;
            Resizes(t.cc, u.cc) && SameEstimate(t.tm, u.tm)
  {
    SegmentFits(t.snd, i);
    var s := t.snd.slist[i];
    SendLoopResizes(t, s, Min(s.len, t.cc.mss), now, w);
    hide SendLoop, SndOk, Quiet, Resizes, Steady;
  }

  lemma ConnectSameAcks(t: Tcb, now: nat, w: Writer)
    requires Wf(t)
    ensures SameAcks(t, Connect(t, now, w).1)
  {
    hide AttemptSend, Quiet, SndOk, CcOk;
    if !t.halted && t.state.Listen? {
      SendingSameAcks(Greet(t, SentSyn), None, now, w);
    }
  }

  lemma SendSameAcks(t: Tcb, data: seq<byte>, now: nat, w: Writer)
    requires Wf(t)
    ensures SameAcks(t, Send(t, data, now, w).1)
  {
    hide AttemptSend, Quiet, Segs, CcOk;
    if !t.halted && t.state.Established? && t.snd.buf.Free() != 0 {
      SendingSameAcks(Queued(t, data), None, now, w);
    }
  }

  lemma ReceiveSameAcks(t: Tcb, n: nat, now: nat, w: Writer)
    requires Wf(t)
    ensures SameAcks(t, Receive(t, n, now, w).2)
  {
    hide AttemptSend, Quiet, SndOk, CcOk, Taken, Reopens;
    if !t.halted && t.state.Established? && t.rcv.buf.len != 0 {
      var bytes := t.rcv.buf.Peek(n, 0);
      SendingSameAcks(WithRcv(t, Taken(t.rcv, |bytes|, t.cc.mss), t.halted), ImmediateAck, now, w);
    }
  }

  lemma TimeoutSameAcks(t: Tcb, now: nat, w: Writer)
    requires Wf(t)
    ensures SameAcks(t, RetransmitOnTimeout(t, now, w).t)
  {
    hide Retransmit, Quiet, SndOk, CcOk, Keeps;
    if RetransmitDue(t, now) && t.snd.slist != [] {
      RetransmitResizes(t, now, w);
    }
  }

  lemma SendAckSameAcks(t: Tcb, seqno: nat, now: nat, w: Writer)
    requires t.snd.buf.Valid()
    ensures SameAcks(t, SendAck(t, seqno, now, w))
  {
  }

  lemma ProbeSameAcks(t: Tcb, now: nat, w: Writer)
    requires Wf(t)
    ensures SameAcks(t, Probe(t, now, w).t)
  {
    SendAckSameAcks(t, Wrap32(t.snd.nxt - 1), now, w);
    hide SendAck, Quiet, SndOk, CcOk, TimeDiff32;
  }

  lemma AckOnTimeSameAcks(t: Tcb, now: nat, w: Writer)
    requires Wf(t)
    ensures SameAcks(t, AckOnTime(t, now, w))
  {
    SendAckSameAcks(t, t.snd.nxt, now, w);
    hide SendAck, Quiet, SndOk, CcOk, TimeDiff32;
  }

  lemma ClockSameAcks(t: Tcb, now: nat, w: Writer)
    requires Wf(t)
    ensures SameAcks(t, NotifyClock(t, now, w))
  {
    hide RetransmitOnTimeout, Probe, AckOnTime, SameAcks, Quiet, SndOk, CcOk, Armed;
    ItsOwnAcks(t);
    TimeoutSameAcks(t, now, w);
    var a := RetransmitOnTimeout(t, now, w);
    if a.Fine? {
      ProbeSameAcks(a.t, now, w);
      var b := Probe(a.t, now, w);
      SameAcksInTurn(t, a.t, b.t);
      if b.Fine? {
        AckOnTimeSameAcks(b.t, now, w);
        SameAcksInTurn(t, b.t, AckOnTime(b.t, now, w));
      }
    }
  }

  lemma ItsOwnAcks(t: Tcb)
    ensures SameAcks(t, t)
  {
  }

  lemma SettingsSameAcks(t: Tcb, op: Op)
    requires Wf(t) && Advisable(op)
    ensures SameAcks(t, Settings(t, op))
  {
    hide SndOk, CcOk;
  }

  lemma ControlSameAcks(t: Tcb, p: Packet)
    requires Wf(t)
    ensures SameAcks(t, Control(t, p).t)
  {
    hide ApplyOptions, Shake, OptionsOf, SameAcks, Quiet, SndOk, CcOk, Armed;
    ItsOwnAcks(t);
    if HasCtl(p.flags) && p.data != [] {
      ApplySameAcks(t, OptionsOf(p));
      var u := ApplyOptions(t, OptionsOf(p));
      ShakeSameAcks(u);
      SameAcksInTurn(t, u, Shake(u));
    }
  }

  lemma ApplySameAcks(t: Tcb, o: Options)
    requires Wf(t)
    ensures SameAcks(t, ApplyOptions(t, o))
  {
    hide Reverted, Segs, CcOk;
    RevertSameAcks(if o.scale == [] then t else t.(snd := t.snd.(scale := o.scale[0])));
  }

  lemma FitSameAcks(t: Tcb, size: nat, scale: nat)
    requires Wf(t) && 4 <= size
    ensures SameAcks(t, FitBuffer(t, size, scale))
  {
    hide SndOk, CcOk, Resized;
  }

  lemma RevertSameAcks(t: Tcb)
    requires Wf(t)
    ensures SameAcks(t, Reverted(t))
  {
    hide FitBuffer, SndOk, CcOk;
    var (k, f) := ScaledSize(DEFAULT_RCV_BUF_SIZE);
    ScaledIsLarge(DEFAULT_RCV_BUF_SIZE);
    FitSameAcks(t, k * Pow2(f), f);
  }

  lemma ShakeSameAcks(t: Tcb)
    requires Wf(t)
    ensures SameAcks(t, Shake(t))
  {
    hide Quiet, SndOk, CcOk;
  }

  // ---- A packet that is looked at ----

  /** The acknowledgment of `p` is looked at. */
  predicate Hears(t: Tcb, p: Packet, now: nat)
    requires Wf(t)
  {
    && !t.halted && !t.state.Closed? && p.conv == t.conv && !HasRst(p.flags)
    && Control(Received(t, now), p).Accept?
  }

  lemma ProcessHandles(t: Tcb, p: Packet, now: nat, w: Writer)
    requires Wf(t) && !t.halted && !t.state.Closed? && p.conv == t.conv && !HasRst(p.flags)
    ensures Process(t, p, now, w) == Handle(Received(t, now), p, now, w)
  {
    hide Handle, Renegotiates, SndOk, CcOk;
  }

  lemma UnheardSameAcks(t: Tcb, p: Packet, now: nat, w: Writer)
    requires Wf(t) && !Hears(t, p, now)
    ensures SameAcks(t, Process(t, p, now, w).1)
  {
    hide Answer, Renegotiates, SndOk, CcOk, Control;
    ControlSameAcks(Received(t, now), p);
  }

  /** The endpoint when the acknowledgment of `p` is looked at. */
  function Hearing(t: Tcb, p: Packet, now: nat): (u: Tcb)
    requires Wf(t)
    ensures Wf(u)
  {
    Stamp(Control(Received(t, now), p).t, p)
  }

  lemma HearingSameAcks(t: Tcb, p: Packet, now: nat)
    requires Wf(t)
    ensures SameAcks(t, Hearing(t, p, now))
  {
    hide Control, SndOk, CcOk;
    ControlSameAcks(Received(t, now), p);
  }

  lemma AfterAckSameAcks(t: Tcb, connect: bool)
    requires Wf(t)
    ensures SameAcks(t, AfterAck(t, connect))
  {
    hide Establish, Refill, Quiet, SndOk, CcOk, Armed;
    EstablishSameAcks(t);
    RefillSameAcks(t);
    RefillSameAcks(Establish(t));
  }

  lemma EstablishSameAcks(t: Tcb)
    requires Wf(t)
    ensures !t.state.Closed? ==> SameAcks(t, Establish(t))
  {
    hide Quiet, SndOk;
  }

  lemma RefillSameAcks(t: Tcb)
    requires Wf(t)
    ensures SameAcks(t, Refill(t))
  {
    hide Quiet, SndOk, CcOk;
  }

  lemma PayloadSameAcks(t: Tcb, p: Packet, now: nat, w: Writer)
    requires Wf(t)
    ensures SameAcks(t, Payload(t, p, now, w).1)
  {
    var v := ArriveAt(t, p);
    var x := WithRcv(t, v.rcv, v.halted);
    hide AttemptSend, ArriveAt, SndOk, CcOk, Quiet, ReplyFlags;
    SendingSameAcks(x, if v.recovered then ImmediateAck else ReplyFlags(t, p), now, w);
  }

  lemma RestSameAcks(t: Tcb, p: Packet, connect: bool, now: nat, w: Writer)
    requires Wf(t)
    ensures SameAcks(t, Rest(t, p, connect, now, w).1)
  {
    hide AfterAck, Payload, Quiet, SndOk, CcOk;
    AfterAckSameAcks(t, connect);
    PayloadSameAcks(AfterAck(t, connect), p, now, w);
  }

  /** Nothing but its acknowledgment changes the counts and the estimate when a packet arrives. */
  lemma HeardProcess(t: Tcb, p: Packet, now: nat, w: Writer)
    requires Wf(t) && Hears(t, p, now)
    ensures var r := Acknowledge(Hearing(t, p, now), p, now, w);
            && (r.Dropped? ==> Process(t, p, now, w).1 == r.t)
            && (r.Fine? ==> SameAcks(r.t, Process(t, p, now, w).1))
  {
    ProcessHandles(t, p, now, w);
    var c := Control(Received(t, now), p);
    var r := Acknowledge(Hearing(t, p, now), p, now, w);
    hide Process, Control, Acknowledge, Stamp, Rest, SndOk, CcOk, Keeps, Renegotiates;
    if r.Fine? {
      RestSameAcks(r.t, p, c.connect, now, w);
    }
  }
}
