/** Time stamps: every packet carries the clock of the call that put it on the network, and echoes a
    stamp of the peer. */
module TcpStamps {
  import opened Numbers
  import opened FifoBuffers
  import opened TcpSegments
  import opened TcpTypes
  import opened TcpSender
  import opened TcpReceiver
  import opened TcpEndpoint
  import opened TcpSystem
  import opened TcpRuns
  import opened TcpRecovery
  import opened TcpReplies
  import opened TcpPolicies
  import opened TcpTimers

  predicate Stamped(p: Packet, now: nat, echo: nat) { p.tsval == now && p.tsecr == echo }

  /** What went out carries the clock `now` and echoes the most recent stamp. */
  ghost predicate Stamps(t: Tcb, u: Tcb, now: nat) {
    && t.io.out <= u.io.out && u.tm.tsRecent == t.tm.tsRecent && u.tm.lastrecv == t.tm.lastrecv
    && forall k :: |t.io.out| <= k < |u.io.out| ==> Stamped(u.io.out[k], now, t.tm.tsRecent)
  }

  /** The application has been told nothing. */
  predicate Silent(t: Tcb, u: Tcb) {
    u.io.events == t.io.events && u.readEnable == t.readEnable && u.writeEnable == t.writeEnable
  }

  lemma StampsInTurn(t: Tcb, u: Tcb, v: Tcb, now: nat)
    requires Stamps(t, u, now) && Stamps(u, v, now)
    ensures Stamps(t, v, now)
  {
  }

  lemma NothingStamped(t: Tcb, u: Tcb, now: nat)
    requires u.io.out == t.io.out && u.tm.tsRecent == t.tm.tsRecent && u.tm.lastrecv == t.tm.lastrecv
    ensures Stamps(t, u, now)
  {
  }

  // ---- Sending ----

  lemma EmitStamps(t: Tcb, p: Packet, now: nat, w: Writer)
    requires AckHeader(p, t.rcv) && Stamped(p, now, t.tm.tsRecent)
    ensures var u := Emit(t, p, w).1; Stamps(t, u, now) && Silent(t, u)
  {
    hide Quiet, Acknowledging, SameClock, AckHeader, Stamped;
  }

  lemma BuildStamps(t: Tcb, seqno: nat, flags: nat, offset: nat, len: nat, now: nat, w: Writer)
    requires t.snd.buf.Valid() && offset + len <= t.snd.buf.len
    ensures var u := BuildPacket(t, seqno, flags, offset, len, now, w).1; Stamps(t, u, now) && Silent(t, u)
  {
    var p := NewPacket(t, seqno, flags, t.snd.buf.Peek(len, offset), now);
    EmitStamps(t, p, now, w);
    hide Emit, NewPacket, Quiet, Acknowledging, SameClock;
    var u := Emit(t, p, w).1;
    NothingStamped(u, Noted(u, len, now), now);
    StampsInTurn(t, u, Noted(u, len, now), now);
    hide Stamps;
  }

  lemma {:induction false} SendLoopStamps(t: Tcb, s: SSegment, n: nat, now: nat, w: Writer)
    requires t.snd.buf.Valid() && CcOk(t.cc) && 0 < n <= s.len
    requires t.snd.una <= s.seqno ==> s.seqno - t.snd.una + n <= t.snd.buf.len
    ensures Stamps(t, SendLoop(t, s, n, now, w).t, now) && Silent(t, SendLoop(t, s, n, now, w).t)
    decreases LAST_LEVEL - t.cc.level
  {
    hide Quiet, Tries, BuildPacket, Stamps;
    NothingStamped(t, t, now);
    if t.snd.una <= s.seqno {
      BuildStamps(t, s.seqno, if s.ctrl then FLAG_CTL else 0, s.seqno - t.snd.una, n, now, w);
      var (res, t1) := SendOnce(t, s, n, now, w);
      if res.TooLarge? {
        TriesAtAll(t, t1);
        var (lower, t2) := Fallback(t1, n);
        TriesAtAll(t1, t2);
        NothingStamped(t1, t2, now);
        StampsInTurn(t, t1, t2, now);
        if lower {
          SendLoopStamps(t2, s, t2.cc.mss, now, w);
          StampsInTurn(t, t2, SendLoop(t2, s, t2.cc.mss, now, w).t, now);
        }
      }
    }
  }

  lemma MarkedStamps(t: Tcb, u: Tcb, v: Tcb, now: nat)
    requires Stamps(t, u, now) && Silent(t, u)
    ensures v == u.(snd := v.snd, tm := u.tm.(rtoBase := v.tm.rtoBase)) ==> Stamps(t, v, now) && Silent(t, v)
    ensures Stamps(t, t, now) && Silent(t, t)
  {
  }

  lemma TransmitStamps(t: Tcb, i: nat, now: nat, w: Writer)
    requires Wf(t) && Transmittable(t.snd, i)
    ensures Stamps(t, Transmit(t, i, now, w).1, now) && Silent(t, Transmit(t, i, now, w).1)
  {
    hide SendLoop, Segs, Tries, Sends, Mark, Stamps, Silent, SameRecovery, SameBuffer, Quiet;
    SegmentFits(t.snd, i);
    var s := t.snd.slist[i];
    SendLoopStamps(t, s, Min(s.len, t.cc.mss), now, w);
    var u := SendLoop(t, s, Min(s.len, t.cc.mss), now, w).t;
    TriesAtAll(t, u);
    MarkedStamps(t, u, Transmit(t, i, now, w).1, now);
    MarkedStamps(t, u, u, now);
  }

  lemma SendNextStamps(t: Tcb, n: nat, now: nat, w: Writer)
    requires Wf(t) && 0 < n <= Unsent(t.snd)
    ensures Stamps(t, SendNext(t, n, now, w).1, now) && Silent(t, SendNext(t, n, now, w).1)
  {
    hide Transmit, Sends, SndOk, CcOk;
    var u := CutNext(t, n);
    TransmitStamps(u, FirstUnsent(u.snd.slist), now, w);
  }

  lemma TurnStamps(t: Tcb, flags: SendFlags, now: nat, w: Writer)
    requires Wf(t)
    ensures Stamps(t, Turn(t, flags, now, w).1, now) && Silent(t, Turn(t, flags, now, w).1)
  {
    var n := Available(t);
    assert t.snd.buf.Valid();
    BuildStamps(t, t.snd.nxt, 0, 0, 0, now, w);
    hide Available, BuildPacket, SendNext, CcOk, Sends, Quiet;
    if n > 0 && !NagleHolds(t, n) {
      SendNextStamps(t, n, now, w);
    }
  }

  lemma {:induction false} LoopStamps(t: Tcb, flags: SendFlags, now: nat, w: Writer)
    requires Wf(t)
    ensures Stamps(t, AttemptLoop(t, flags, now, w), now) && Silent(t, AttemptLoop(t, flags, now, w))
    decreases Unsent(t.snd)
  {
    hide Turn, Sends, Stamps, CcOk;
    TurnStamps(t, flags, now, w);
    var (done, u) := Turn(t, flags, now, w);
    if !done {
      LoopStamps(u, None, now, w);
      StampsInTurn(t, u, AttemptLoop(u, None, now, w), now);
    }
  }

  lemma SendingStamps(t: Tcb, flags: SendFlags, now: nat, w: Writer)
    requires Wf(t)
    ensures Stamps(t, AttemptSend(t, flags, now, w), now) && Silent(t, AttemptSend(t, flags, now, w))
  {
    hide AttemptLoop, TimeDiff32;
    LoopStamps(Restarted(t, now), flags, now, w);
  }

  lemma RetransmitStamps(t: Tcb, now: nat, w: Writer)
    requires Wf(t) && t.snd.una < t.snd.nxt
    ensures Stamps(t, Retransmit(t, now, w).t, now)
  {
    FrontInFlight(t.snd.slist, t.snd.una, t.snd.nxt, t.snd.una + t.snd.buf.len);
    TransmitStamps(t, 0, now, w);
    hide Transmit, SndOk, CcOk, Quiet, Steady;
  }

  // ---- Calls of the application and of the clock ----

  lemma ConnectStamps(t: Tcb, now: nat, w: Writer)
    requires Wf(t)
    ensures Stamps(t, Connect(t, now, w).1, now)
  {
    hide AttemptSend, Quiet, SndOk, CcOk;
    if !t.halted && t.state.Listen? {
      SendingStamps(Greet(t, SentSyn), None, now, w);
    }
  }

  lemma SendStamps(t: Tcb, data: seq<byte>, now: nat, w: Writer)
    requires Wf(t)
    ensures Stamps(t, Send(t, data, now, w).1, now)
  {
    hide AttemptSend, Quiet, Segs, CcOk;
    if !t.halted && t.state.Established? && t.snd.buf.Free() != 0 {
      SendingStamps(Queued(t, data), None, now, w);
    }
  }

  lemma ReceiveStamps(t: Tcb, n: nat, now: nat, w: Writer)
    requires Wf(t)
    ensures Stamps(t, Receive(t, n, now, w).2, now)
  {
    hide AttemptSend, Quiet, SndOk, CcOk, Taken, Reopens;
    if !t.halted && t.state.Established? && t.rcv.buf.len != 0 {
      var bytes := t.rcv.buf.Peek(n, 0);
      SendingStamps(WithRcv(t, Taken(t.rcv, |bytes|, t.cc.mss), t.halted), ImmediateAck, now, w);
    }
  }

  lemma TimeoutStamps(t: Tcb, now: nat, w: Writer)
    requires Wf(t)
    ensures Stamps(t, RetransmitOnTimeout(t, now, w).t, now)
  {
    hide Retransmit, Quiet, SndOk, CcOk, Keeps;
    if RetransmitDue(t, now) && t.snd.slist != [] {
      RetransmitStamps(t, now, w);
    }
  }

  lemma ProbeStamps(t: Tcb, now: nat, w: Writer)
    requires Wf(t)
    ensures Stamps(t, Probe(t, now, w).t, now)
  {
    assert t.snd.buf.Valid();
    BuildStamps(t, Wrap32(t.snd.nxt - 1), 0, 0, 0, now, w);
    hide BuildPacket, Quiet, SndOk, CcOk, TimeDiff32, Keeps;
  }

  lemma AckOnTimeStamps(t: Tcb, now: nat, w: Writer)
    requires Wf(t)
    ensures Stamps(t, AckOnTime(t, now, w), now)
  {
    assert t.snd.buf.Valid();
    BuildStamps(t, t.snd.nxt, 0, 0, 0, now, w);
    hide BuildPacket, Quiet, SndOk, CcOk, TimeDiff32, Keeps;
  }

  lemma ClockStamps(t: Tcb, now: nat, w: Writer)
    requires Wf(t)
    ensures Stamps(t, NotifyClock(t, now, w), now)
  {
    hide RetransmitOnTimeout, Probe, AckOnTime, Stamps, Quiet, SndOk, CcOk, Armed;
    NothingStamped(t, t, now);
    TimeoutStamps(t, now, w);
    var a := RetransmitOnTimeout(t, now, w);
    if a.Fine? {
      ProbeStamps(a.t, now, w);
      var b := Probe(a.t, now, w);
      StampsInTurn(t, a.t, b.t, now);
      if b.Fine? {
        AckOnTimeStamps(b.t, now, w);
        StampsInTurn(t, b.t, AckOnTime(b.t, now, w), now);
      }
    }
  }

  // ---- A packet arrives ----

  lemma ControlStamps(t: Tcb, p: Packet, now: nat)
    requires Wf(t)
    ensures Stamps(t, Control(t, p).t, now)
  {
    hide Control, SndOk, CcOk, Quiet;
    NothingStamped(t, Control(t, p).t, now);
  }

  lemma ProgressStamps(t: Tcb, n: nat, now: nat, w: Writer)
    requires Wf(t)
    ensures Stamps(t, Progress(t, n, now, w).t, now)
  {
    hide Retransmit, Keeps, Quiet, Segs, CcOk;
    if t.cc.dupAcks >= 3 && t.snd.una < t.cc.recover {
      RetransmitStamps(t, now, w);
    }
  }

  lemma AckBytesStamps(t: Tcb, p: Packet, now: nat)
    requires Wf(t) && t.snd.una < p.ack <= t.snd.nxt
    ensures Wf(t.(tm := EstimateFrom(t.tm, p, now)))
    ensures Stamps(t, AckBytes(t.(tm := EstimateFrom(t.tm, p, now)), p, now), now)
  {
    hide Freed, TimeDiff32, Quiet, Segs;
  }

  lemma NewAckStamps(t: Tcb, p: Packet, now: nat, w: Writer)
    requires Wf(t) && t.snd.una < p.ack <= t.snd.nxt
    ensures Stamps(t, NewAck(t, p, now, w).t, now)
  {
    hide Progress, Freed, TimeDiff32, Estimate, Quiet, Segs, Stamps;
    AckBytesStamps(t, p, now);
    var u := AckBytes(t.(tm := EstimateFrom(t.tm, p, now)), p, now);
    ProgressStamps(u, p.ack - t.snd.una, now, w);
    StampsInTurn(t, u, NewAck(t, p, now, w).t, now);
  }

  lemma CountStamps(t: Tcb, now: nat, w: Writer)
    requires Wf(t) && t.snd.una < t.snd.nxt
    ensures Stamps(t, CountDuplicate(t, now, w).t, now)
  {
    hide Retransmit, Keeps, Quiet, SndOk, CcOk, InFlight;
    RetransmitStamps(t, now, w);
  }

  lemma RepeatedStamps(t: Tcb, bare: bool, now: nat, w: Writer)
    requires Wf(t)
    ensures Stamps(t, Repeated(t, bare, now, w).t, now)
  {
    EndIsLast(t.snd.slist, t.snd.una, t.snd.nxt, t.snd.una + t.snd.buf.len);
    hide CountDuplicate, Keeps, Quiet, SndOk, CcOk;
    if bare && t.snd.una < t.snd.nxt {
      CountStamps(t.(cc := t.cc.(dupAcks := (t.cc.dupAcks + 1) % 256)), now, w);
    }
  }

  lemma AcknowledgeStamps(t: Tcb, p: Packet, now: nat, w: Writer)
    requires Wf(t)
    ensures Stamps(t, Acknowledge(t, p, now, w).t, now)
  {
    hide NewAck, Repeated, WindowOf, Segs, CcOk;
    if t.snd.una < p.ack <= t.snd.nxt {
      NewAckStamps(t, p, now, w);
    } else if p.ack == t.snd.una {
      RepeatedStamps(t.(snd := t.snd.(wnd := WindowOf(p, t.snd.scale))), p.data == [], now, w);
    }
  }

  lemma PayloadStamps(t: Tcb, p: Packet, now: nat, w: Writer)
    requires Wf(t)
    ensures Stamps(t, Payload(t, p, now, w).1, now)
  {
    var v := ArriveAt(t, p);
    var x := WithRcv(t, v.rcv, v.halted);
    hide AttemptSend, ArriveAt, SndOk, CcOk, Quiet, ReplyFlags;
    SendingStamps(x, if v.recovered then ImmediateAck else ReplyFlags(t, p), now, w);
  }

  lemma AfterAckStamps(t: Tcb, connect: bool, now: nat)
    requires Wf(t)
    ensures Stamps(t, AfterAck(t, connect), now)
  {
    hide SndOk, CcOk, Armed, AdjustMtu;
  }

  lemma RestStamps(t: Tcb, p: Packet, connect: bool, now: nat, w: Writer)
    requires Wf(t)
    ensures Stamps(t, Rest(t, p, connect, now, w).1, now)
  {
    hide AfterAck, Payload, Quiet, SndOk, CcOk, Stamps;
    AfterAckStamps(t, connect, now);
    PayloadStamps(AfterAck(t, connect), p, now, w);
    StampsInTurn(t, AfterAck(t, connect), Rest(t, p, connect, now, w).1, now);
  }

  /** The stamp that is echoed after a packet. */
  function Recent(t: Tcb, p: Packet, now: nat): nat
    requires Wf(t)
  {
    if Hears(t, p, now) && p.seqno <= t.tm.tsLastack < p.seqno + |p.data| then p.tsval else t.tm.tsRecent
  }

  /** What went out carries the clock and echoes `echo`, which is the most recent stamp now. */
  ghost predicate StampsWith(t: Tcb, u: Tcb, now: nat, echo: nat) {
    && t.io.out <= u.io.out && u.tm.tsRecent == echo
    && forall k :: |t.io.out| <= k < |u.io.out| ==> Stamped(u.io.out[k], now, echo)
  }

  lemma StampsFrom(t: Tcb, h: Tcb, u: Tcb, now: nat, echo: nat)
    requires h.io.out == t.io.out && h.tm.tsRecent == echo && Stamps(h, u, now)
    ensures StampsWith(t, u, now, echo) && u.tm.lastrecv == h.tm.lastrecv
  {
  }

  lemma HearingStamps(t: Tcb, p: Packet, now: nat)
    requires Wf(t) && Hears(t, p, now)
    ensures var h := Hearing(t, p, now);
            h.io.out == t.io.out && h.tm.tsRecent == Recent(t, p, now) && h.tm.lastrecv == now
  {
    hide Control, SndOk, CcOk, Quiet;
  }

  lemma HeardStamps(t: Tcb, p: Packet, now: nat, w: Writer)
    requires Wf(t) && Hears(t, p, now)
    ensures var u := Process(t, p, now, w).1;
            StampsWith(t, u, now, Recent(t, p, now)) && u.tm.lastrecv == now
  {
    hide Process, Control, Acknowledge, Rest, Hearing, Hears, Recent, Stamps, StampsWith, Wf;
    ProcessIs(t, p, now, w);
    HearingStamps(t, p, now);
    var h := Hearing(t, p, now);
    AcknowledgeStamps(h, p, now, w);
    var r := Acknowledge(h, p, now, w);
    if r.Fine? {
      var u := Rest(r.t, p, Control(Received(t, now), p).connect, now, w).1;
      RestStamps(r.t, p, Control(Received(t, now), p).connect, now, w);
      StampsInTurn(h, r.t, u, now);
      StampsFrom(t, h, u, now, Recent(t, p, now));
    } else {
      StampsFrom(t, h, r.t, now, Recent(t, p, now));
    }
  }

  lemma UnheardStamps(t: Tcb, p: Packet, now: nat, w: Writer)
    requires Wf(t) && !Hears(t, p, now)
    ensures var u := Process(t, p, now, w).1;
            && StampsWith(t, u, now, t.tm.tsRecent)
            && u.tm.lastrecv == if t.halted || p.conv != t.conv then t.tm.lastrecv else now
  {
    hide Answer, Renegotiates, SndOk, CcOk, Control, Keeps, Quiet;
    ControlStamps(Received(t, now), p, now);
  }

  // ---- Any run ----

  /** The stamp that is echoed after a call. */
  function EchoAfter(t: Tcb, op: Op): nat
    requires Wf(t)
  {
    if op.Arrives? then Recent(t, op.p, op.now) else t.tm.tsRecent
  }

  /** `op` reads the clock `now`. */
  predicate Reads(op: Op, now: nat) {
    match op
    case DoConnect(n, w) => n == now
    case DoSend(data, n, w) => n == now
    case DoReceive(k, n, w) => n == now
    case DoClock(n, w) => n == now
    case Arrives(p, n, w) => n == now
    case _ => false
  }

  /** What call `op` puts on the network. */
  ghost predicate StampedBy(t: Tcb, u: Tcb, op: Op)
    requires Wf(t)
  {
    && t.io.out <= u.io.out && u.tm.tsRecent == EchoAfter(t, op)
    && forall k :: |t.io.out| <= k < |u.io.out| ==>
         Reads(op, u.io.out[k].tsval) && u.io.out[k].tsecr == EchoAfter(t, op)
  }

  lemma StampsBy(t: Tcb, u: Tcb, op: Op, now: nat)
    requires Wf(t) && Reads(op, now)
    requires StampsWith(t, u, now, EchoAfter(t, op))
    ensures StampedBy(t, u, op)
  {
    hide Wf, Recent;
    assert forall k :: |t.io.out| <= k < |u.io.out| ==> Stamped(u.io.out[k], now, EchoAfter(t, op));
  }

  lemma StampsWithRecent(t: Tcb, u: Tcb, now: nat)
    requires Stamps(t, u, now)
    ensures StampsWith(t, u, now, t.tm.tsRecent)
  {
  }

  lemma ArrivalStamps(t: Tcb, op: Op)
    requires Wf(t) && op.Arrives?
    ensures StampsWith(t, Then(t, op), op.now, EchoAfter(t, op))
  {
    hide Then, Process, Hears, Wf, Stamps, StampsWith;
    ThenProcesses(t, op);
    if Hears(t, op.p, op.now) {
      HeardStamps(t, op.p, op.now, op.w);
    } else {
      UnheardStamps(t, op.p, op.now, op.w);
    }
  }

  lemma SettingStamps(t: Tcb, op: Op)
    requires Wf(t) && (op.DoClose? || op.DoMtu? || op.DoNoDelay? || op.DoAckDelay?)
    ensures StampedBy(t, Then(t, op), op)
  {
    hide SndOk, CcOk, AdjustMtu, Settings;
    if Advisable(op) {
      SettingsOut(t, op);
    }
  }

  lemma SettingsOut(t: Tcb, op: Op)
    requires Wf(t) && Advisable(op)
    ensures Settings(t, op).io.out == t.io.out && Settings(t, op).tm == t.tm
  {
    hide NotifyMtu, SndOk, CcOk, Quiet;
    if op.DoMtu? {
      MtuOut(t, op.mtu);
    }
  }

  lemma MtuOut(t: Tcb, mtu: nat)
    requires Wf(t) && PACKET_OVERHEAD < mtu <= MAX_PACKET
    ensures NotifyMtu(t, mtu).io == t.io && NotifyMtu(t, mtu).tm == t.tm
  {
    hide SndOk, CcOk, AdjustMtu, Keeps, Steady, Armed, Quiet;
  }

  lemma CallStamps(t: Tcb, op: Op)
    requires Wf(t) && (op.DoConnect? || op.DoSend? || op.DoReceive? || op.DoClock?)
    ensures Stamps(t, Then(t, op), op.now)
  {
    hide Connect, Send, Receive, NotifyClock, Process, Settings, Stamps, SndOk, CcOk;
    match op
    case DoConnect(now, w) => ConnectStamps(t, now, w);
    case DoSend(data, now, w) => SendStamps(t, data, now, w);
    case DoReceive(n, now, w) => ReceiveStamps(t, n, now, w);
    case DoClock(now, w) => ClockStamps(t, now, w);
  }

  lemma ThenStamps(t: Tcb, op: Op)
    requires Wf(t)
    ensures StampedBy(t, Then(t, op), op)
  {
    hide Then, Stamps, StampsWith, StampedBy, Recent, Wf;
    if op.Arrives? {
      ArrivalStamps(t, op);
      StampsBy(t, Then(t, op), op, op.now);
    } else if op.DoClose? || op.DoMtu? || op.DoNoDelay? || op.DoAckDelay? {
      SettingStamps(t, op);
    } else {
      CallStamps(t, op);
      StampsWithRecent(t, Then(t, op), op.now);
      StampsBy(t, Then(t, op), op, op.now);
    }
  }

  /** When the last packet of the conversation came. */
  function LastArrival(t: Tcb, ops: seq<Op>): nat
    requires Wf(t)
  {
    if ops == [] then t.tm.lastrecv
    else
      var before, op := ops[..|ops| - 1], ops[|ops| - 1];
      var u := After(t, before);
      if op.Arrives? && op.p.conv == u.conv && !u.halted then op.now else LastArrival(t, before)
  }

  lemma HeardIsOurs(t: Tcb, p: Packet, now: nat)
    requires Wf(t) && Hears(t, p, now)
    ensures p.conv == t.conv && !t.halted
  {
  }

  lemma ThenArrives(t: Tcb, op: Op)
    requires Wf(t)
    ensures Then(t, op).tm.lastrecv ==
            if op.Arrives? && op.p.conv == t.conv && !t.halted then op.now else t.tm.lastrecv
  {
    hide Then, Process, Hears, StampsWith, Wf;
    if op.Arrives? {
      ThenProcesses(t, op);
      if Hears(t, op.p, op.now) {
        HeardIsOurs(t, op.p, op.now);
        HeardStamps(t, op.p, op.now, op.w);
      } else {
        UnheardStamps(t, op.p, op.now, op.w);
      }
    } else if op.DoClose? || op.DoMtu? || op.DoNoDelay? || op.DoAckDelay? {
      SettingArrives(t, op);
    } else {
      CallStamps(t, op);
    }
  }

  lemma SettingArrives(t: Tcb, op: Op)
    requires Wf(t) && (op.DoClose? || op.DoMtu? || op.DoNoDelay? || op.DoAckDelay?)
    ensures Then(t, op).tm == t.tm
  {
    hide SndOk, CcOk, AdjustMtu, Settings;
    if Advisable(op) {
      SettingsOut(t, op);
    }
  }

  /** The silence that a probe waits for is that since the last packet of the conversation. */
  lemma {:induction false} SilenceIsMeasured(t: Tcb, ops: seq<Op>)
    requires Wf(t)
    ensures After(t, ops).tm.lastrecv == LastArrival(t, ops)
  {
    if ops != [] {
      SilenceIsMeasured(t, ops[..|ops| - 1]);
      hide Then, Wf;
      ThenArrives(After(t, ops[..|ops| - 1]), ops[|ops| - 1]);
    }
  }

  // ---- Between two endpoints ----

  /** `echo` is nothing yet, or the stamp of a packet that `y` has put on the network. */
  ghost predicate Genuine(echo: nat, y: Tcb) {
    echo == 0 || exists q :: q in y.io.out && q.tsval == echo
  }

  /** Whatever `x` echoes and will echo is genuine. */
  ghost predicate Echoing(x: Tcb, y: Tcb) {
    Genuine(x.tm.tsRecent, y) && forall p :: p in x.io.out ==> Genuine(p.tsecr, y)
  }

  lemma MoreIsGenuine(echo: nat, y: Tcb, z: Tcb)
    requires Genuine(echo, y) && y.io.out <= z.io.out
    ensures Genuine(echo, z)
  {
  }

  lemma PeerEchoes(x: Tcb, y: Tcb, z: Tcb)
    requires Echoing(x, y) && y.io.out <= z.io.out
    ensures Echoing(x, z)
  {
    MoreIsGenuine(x.tm.tsRecent, y, z);
    forall p | p in x.io.out ensures Genuine(p.tsecr, z) {
      MoreIsGenuine(p.tsecr, y, z);
    }
  }

  lemma RecentIsGenuine(x: Tcb, y: Tcb, op: Op)
    requires Wf(x) && Echoing(x, y) && Legal(y, op)
    ensures Genuine(EchoAfter(x, op), y)
  {
    hide Wf, Hears;
  }

  lemma NextEchoes(x: Tcb, u: Tcb, y: Tcb, op: Op)
    requires Wf(x) && Echoing(x, y) && StampedBy(x, u, op) && Genuine(EchoAfter(x, op), y)
    ensures Echoing(u, y)
  {
    hide Wf, EchoAfter, Genuine;
    forall p | p in u.io.out ensures Genuine(p.tsecr, y) {
      var k :| 0 <= k < |u.io.out| && u.io.out[k] == p;
      assert k < |x.io.out| ==> x.io.out[k] == p;
    }
  }

  lemma ActIsThen(x: Half, y: Tcb, op: Op)
    requires Wf(x.t) && Legal(y, op)
    ensures Act(x, op).t == Then(x.t, op)
  {
    hide Connect, Send, Receive, NotifyClock, Process, SndOk, CcOk;
  }

  lemma ActEchoes(x: Half, y: Tcb, op: Op)
    requires Wf(x.t) && Echoing(x.t, y) && Echoing(y, x.t) && Legal(y, op)
    ensures var u := Act(x, op).t;
            Echoing(u, y) && Echoing(y, u)
  {
    hide Act, Then, Wf, Genuine, EchoAfter;
    ActIsThen(x, y, op);
    ThenStamps(x.t, op);
    RecentIsGenuine(x.t, y, op);
    NextEchoes(x.t, Act(x, op).t, y, op);
    PeerEchoes(y, x.t, Act(x, op).t);
  }

  lemma NextStepEchoes(s: Sys, step: Step)
    requires SysWf(s) && Echoing(s.a.t, s.b.t) && Echoing(s.b.t, s.a.t)
    ensures var u := Next(s, step); Echoing(u.a.t, u.b.t) && Echoing(u.b.t, u.a.t)
  {
    hide Act, Wf, Legal, Echoing;
    match step
    case OfA(op) => if Legal(s.b.t, op) { ActEchoes(s.a, s.b.t, op); }
    case OfB(op) => if Legal(s.a.t, op) { ActEchoes(s.b, s.a.t, op); }
  }

  /** The stamps echoed over any run of two endpoints, whatever the network does: each is nothing yet
      or the clock that the other end read when it put a packet on the network. */
  lemma {:induction false} EchoesAreGenuine(s: Sys, steps: seq<Step>)
    requires SysWf(s) && s.a.t.io.out == s.b.t.io.out == []
    requires s.a.t.tm.tsRecent == 0 == s.b.t.tm.tsRecent
    ensures var u := Run(s, steps); Echoing(u.a.t, u.b.t) && Echoing(u.b.t, u.a.t)
  {
    if steps != [] {
      EchoesAreGenuine(s, steps[..|steps| - 1]);
      hide Next, Wf, Echoing;
      NextStepEchoes(Run(s, steps[..|steps| - 1]), steps[|steps| - 1]);
    }
  }

  /** So an endpoint measures round-trip times: each sample, at either end of any run, is the time since
      it put a packet of its own on the network. */
  lemma SampleIsRoundTrip(x: Tcb, y: Tcb, op: Op) returns (q: Packet)
    requires Wf(x) && Echoing(y, x) && Legal(y, op) && SampleOf(x, op) != []
    ensures q in x.io.out && SampleOf(x, op) == [TimeDiff32(op.now, q.tsval)]
  {
    hide Wf, Hears, TimeDiff32;
    assert Genuine(op.p.tsecr, x);
    q :| q in x.io.out && q.tsval == op.p.tsecr;
  }
}
