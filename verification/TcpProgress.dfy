/** Congestion control, timers and progress of an endpoint: the retransmit timer runs exactly
    while bytes are in flight, the window never closes for good, and the estimator stays within
    what it has measured. */
module TcpProgress {
  import opened Numbers
  import opened FifoBuffers
  import opened TcpSegments
  import opened TcpTypes
  import opened TcpSender
  import opened TcpReceiver
  import opened TcpEndpoint
  import opened TcpLink
  import opened TcpReassembly
  import opened TcpDelivery
  import opened TcpSystem
  import opened TcpTheorems
  import opened TcpRuns

  // ---- Congestion state and retransmit timer in every run ----

  function ClockOf(op: Op): nat {
    match op
    case DoConnect(now, _) => now
    case DoSend(_, now, _) => now
    case DoReceive(_, now, _) => now
    case DoClock(now, _) => now
    case Arrives(_, now, _) => now
    case _ => 1
  }

  function OpOf(step: Step): Op {
    match step
    case OfA(op) => op
    case OfB(op) => op
  }

  lemma SettingsKeep(t: Tcb, op: Op)
    requires Wf(t) && (op.DoMtu? ==> PACKET_OVERHEAD + CONNECT <= op.mtu <= MAX_PACKET)
    ensures Keeps(t, Settings(t, op), 1)
  {
    hide AdjustMtu;
  }

  lemma ArrivalKeeps(x: Half, y: Half, p: Packet, now: nat, w: Writer)
    requires Coherent(x, y) && p in y.t.io.out
    ensures Keeps(x.t, Process(x.t, p, now, w).1, now)
  {
    hide Keeps, Process;
    ProcessKeepsCoupled(x.t, y.t, Stream(x), x.got, Stream(y), y.got, p, now, w);
  }

  lemma ActKeeps(x: Half, y: Half, op: Op)
    requires Coherent(x, y) && Legal(y.t, op)
    ensures Keeps(x.t, Act(x, op).t, ClockOf(op))
  {
    assert Wf(x.t);
    hide Keeps, Coherent, Settings, Process, Send, Receive, NotifyClock, Connect, Wf;
    if op.Arrives? {
      ArrivalKeeps(x, y, op.p, op.now, op.w);
    } else if op.DoClose? || op.DoMtu? || op.DoNoDelay? || op.DoAckDelay? {
      SettingsKeep(x.t, op);
    }
  }

  ghost predicate Steered(s: Sys) {
    && SysWf(s)
    && Steady(s.a.t.state, s.a.t.cc) && Steady(s.b.t.state, s.b.t.cc)
    && Armed(s.a.t) && Armed(s.b.t)
  }

  lemma NextKeepsSteered(s: Sys, step: Step)
    requires Steered(s) && Coherent(s.a, s.b) && ClockOf(OpOf(step)) > 0
    ensures Steered(Next(s, step))
  {
    SwapCoherent(s.a, s.b);
    match step
    case OfA(op) => if Legal(s.b.t, op) { ActKeeps(s.a, s.b, op); }
    case OfB(op) => if Legal(s.a.t, op) { ActKeeps(s.b, s.a, op); }
    hide Coherent, Act, CcOk, SndOk;
  }

  lemma {:induction false} RunKeepsSteered(s: Sys, steps: seq<Step>)
    requires Steered(s) && Coherent(s.a, s.b)
    requires forall k :: 0 <= k < |steps| ==> ClockOf(OpOf(steps[k])) > 0
    ensures Steered(Run(s, steps))
  {
    assert SysWf(s);
    hide Coherent, Steered, Next;
    if steps != [] {
      var before := steps[..|steps| - 1];
      RunKeepsSteered(s, before);
      RunKeepsCoherent(s, before);
      NextKeepsSteered(Run(s, before), steps[|steps| - 1]);
    }
  }

  /** The retransmit timer runs exactly while bytes are in flight, and an open connection's
      congestion window holds a segment, its threshold two. */
  predicate InControl(t: Tcb) {
    && (t.tm.rtoBase != 0 <==> t.snd.una < t.snd.nxt)
    && (t.state.Established? ==> 1 <= t.cc.mss <= t.cc.cwnd && 2 * t.cc.mss <= t.cc.ssthresh)
    && MIN_RTO <= t.tm.rto <= MAX_RTO
  }

  lemma SteeredIsInControl(s: Sys)
    requires Steered(s)
    ensures InControl(s.a.t) && InControl(s.b.t)
  {
    hide SndOk;
  }

  lemma CoherentIsRoomy(x: Half, y: Half)
    requires Coherent(x, y)
    ensures Roomy(x.t.cc) && Roomy(y.t.cc)
  {
    hide SenderOk, PacketsOk, AcksOk, Flow, Ranges, Content, Roomy;
  }

  /** So it is at both ends in every run whose clock is not zero; and segments have room for the
      connect message. */
  lemma SteeredInEveryRun(s: Sys, steps: seq<Step>)
    requires Initial(s)
    requires forall k :: 0 <= k < |steps| ==> ClockOf(OpOf(steps[k])) > 0
    ensures SysWf(s)
    ensures var u := Run(s, steps);
            InControl(u.a.t) && InControl(u.b.t) && 4 <= u.a.t.cc.mss && 4 <= u.b.t.cc.mss
  {
    InitialIsCoherent(s);
    InitialIsSteered(s);
    hide Coherent, Run, Steered, InControl, Initial;
    RunKeepsSteered(s, steps);
    RunKeepsCoherent(s, steps);
    SteeredIsInControl(Run(s, steps));
    CoherentIsRoomy(Run(s, steps).a, Run(s, steps).b);
  }

  lemma InitialIsSteered(s: Sys)
    requires Initial(s)
    ensures Steered(s)
  {
    hide SndOk, CcOk;
  }

  // ---- One endpoint, whatever packets come ----

  predicate NoneRenegotiates(t: Tcb, ops: seq<Op>)
    requires Wf(t)
  {
    ops != [] ==>
      var before, last := ops[..|ops| - 1], ops[|ops| - 1];
      && NoneRenegotiates(t, before)
      && (last.Arrives? ==> !Renegotiates(After(t, before), last.p))
  }

  /** What one call keeps, also for an MTU that leaves a single byte of payload. */
  ghost predicate StaysSteered(t: Tcb, u: Tcb)
    requires Wf(t) && Wf(u)
  {
    (Armed(t) ==> Armed(u)) && (Steady(t.state, t.cc) ==> Steady(u.state, u.cc))
  }

  lemma KeepsStaysSteered(t: Tcb, u: Tcb, now: nat)
    requires Wf(t) && Keeps(t, u, now) && now > 0
    ensures Wf(u) && StaysSteered(t, u)
  {
  }

  lemma SettingsStaySteered(t: Tcb, op: Op)
    requires Wf(t) && Advisable(op)
    ensures StaysSteered(t, Settings(t, op))
  {
    hide AdjustMtu, SndOk, CcOk;
  }

  lemma ThenStaysSteered(t: Tcb, op: Op)
    requires Wf(t) && ClockOf(op) > 0 && (op.Arrives? ==> !Renegotiates(t, op.p))
    ensures StaysSteered(t, Then(t, op))
  {
    hide Connect, Send, Receive, NotifyClock, Process, Settings, Keeps, StaysSteered, Renegotiates, Wf;
    match op
    case DoConnect(now, w) => KeepsStaysSteered(t, Connect(t, now, w).1, now);
    case DoSend(data, now, w) => KeepsStaysSteered(t, Send(t, data, now, w).1, now);
    case DoReceive(n, now, w) => KeepsStaysSteered(t, Receive(t, n, now, w).2, now);
    case DoClock(now, w) => KeepsStaysSteered(t, NotifyClock(t, now, w), now);
    case Arrives(p, now, w) => KeepsStaysSteered(t, Process(t, p, now, w).1, now);
    case _ =>
      if Advisable(op) {
        SettingsStaySteered(t, op);
      } else {
        SteeredAsBefore(t);
      }
  }

  lemma SteeredAsBefore(t: Tcb)
    requires Wf(t)
    ensures StaysSteered(t, t)
  {
  }

  lemma {:induction false} RunStaysSteered(t: Tcb, ops: seq<Op>)
    requires Wf(t) && NoneRenegotiates(t, ops)
    requires forall k :: 0 <= k < |ops| ==> ClockOf(ops[k]) > 0
    ensures StaysSteered(t, After(t, ops))
  {
    if ops == [] {
      SteeredAsBefore(t);
    } else {
      var before, last := ops[..|ops| - 1], ops[|ops| - 1];
      RunStaysSteered(t, before);
      hide Then, Renegotiates, Wf, Armed, Steady;
      ThenStaysSteered(After(t, before), last);
    }
  }

  /** Congestion state and timer of one endpoint, whatever packets arrive and with any MTU that
      leaves a byte of payload: as long as no packet makes it revert its buffer. */
  lemma SteeredAlone(t: Tcb, ops: seq<Op>)
    requires Wf(t) && Steady(t.state, t.cc) && Armed(t) && NoneRenegotiates(t, ops)
    requires forall k :: 0 <= k < |ops| ==> ClockOf(ops[k]) > 0
    ensures InControl(After(t, ops))
  {
    RunStaysSteered(t, ops);
    hide After, NoneRenegotiates, SndOk;
  }

  /** Segment lengths sum up to the bytes buffered, the transmitted ones come first and sum up
      to the bytes in flight; so a retransmission finds its segment, and the scan for an unsent
      segment finds one. */
  ghost predicate SegmentsAccount(s: Snd) {
    && s.buf.Valid() && Accounted(s.slist, s.una, s.nxt, s.una + s.buf.len)
    && (s.una < s.nxt ==> Transmittable(s, 0))
    && (s.nxt < s.una + s.buf.len ==> Transmittable(s, FirstUnsent(s.slist)))
  }

  lemma OrderAccounts(s: Snd)
    requires SndOk(s)
    ensures SegmentsAccount(s)
  {
    SegsAccount(s.slist, s.una, s.nxt, s.una + s.buf.len);
    FrontInFlight(s.slist, s.una, s.nxt, s.una + s.buf.len);
    if s.nxt < s.una + s.buf.len {
      UnsentExists(s.slist, s.una, s.nxt, s.una + s.buf.len);
    }
  }

  /** Segment-list accounting, whatever arrives and whatever is called. */
  lemma SegmentsAlwaysAccount(t: Tcb, ops: seq<Op>)
    requires Wf(t)
    ensures SegmentsAccount(After(t, ops).snd)
  {
    hide After, SegmentsAccount;
    OrderAccounts(After(t, ops).snd);
  }

  // ---- The one exception: a late renegotiation ----

  lemma DefaultSize()
    ensures ScaledSize(DEFAULT_RCV_BUF_SIZE) == (DEFAULT_RCV_BUF_SIZE, 0) && Pow2(0) == 1
  {
  }

  lemma ResizedCc(t: Tcb)
    requires Wf(t)
    ensures ResizeReceiveBuffer(t, DEFAULT_RCV_BUF_SIZE).cc ==
            if t.rcv.buf.len <= DEFAULT_RCV_BUF_SIZE then t.cc.(ssthresh := DEFAULT_RCV_BUF_SIZE) else t.cc
  {
    DefaultSize();
    hide ScaledSize, SndOk, CcOk;
  }

  lemma RenegotiatedCc(t: Tcb, o: Options)
    requires Wf(t)
    ensures ApplyOptions(t, o).cc ==
            if !o.broken && !o.offered && t.rcv.scale > 0 && t.rcv.buf.len <= DEFAULT_RCV_BUF_SIZE
            then t.cc.(ssthresh := DEFAULT_RCV_BUF_SIZE) else t.cc
  {
    hide ResizeReceiveBuffer, CcOk;
    ResizedCc(if o.scale == [] then t else t.(snd := t.snd.(scale := o.scale[0])));
  }

  lemma ControlledCc(t: Tcb, p: Packet)
    requires Wf(t) && t.state.Established?
    ensures var c := Control(t, p).t;
            c.state.Established? &&
            c.cc == if Renegotiates(t, p) && t.rcv.buf.len <= DEFAULT_RCV_BUF_SIZE
                    then t.cc.(ssthresh := DEFAULT_RCV_BUF_SIZE) else t.cc
  {
    hide ApplyOptions, ParseOptions;
    if p.data != [] {
      RenegotiatedCc(t, OptionsOf(p));
    }
  }

  /** Control data that reaches an open connection keeps its congestion state, except: a connect
      message without window scaling sets the threshold to the default buffer size, which is less
      than two large segments. */
  lemma ControlKeepsSteadyExactly(t: Tcb, p: Packet)
    requires Wf(t) && t.state.Established? && Steady(t.state, t.cc)
    ensures var c := Control(t, p).t;
            Steady(c.state, c.cc) <==>
            !(Renegotiates(t, p) && t.rcv.buf.len <= DEFAULT_RCV_BUF_SIZE && DEFAULT_RCV_BUF_SIZE < 2 * t.cc.mss)
  {
    hide Control, Renegotiates;
    ControlledCc(t, p);
  }

  // ---- Sending gets on ----

  lemma AcceptedWriteSends(t: Tcb, s: SSegment, n: nat, now: nat, w: Writer)
    requires t.snd.buf.Valid() && CcOk(t.cc) && 0 < n <= s.len
    requires t.snd.una <= s.seqno && s.seqno - t.snd.una + n <= t.snd.buf.len
    requires w(t.io.writes).Success?
    ensures SendLoop(t, s, n, now, w).Sent?
  {
  }

  predicate ReadyToSend(t: Tcb) {
    t.snd.una == t.snd.nxt && t.snd.buf.len > 0 && t.snd.wnd > 0
  }

  lemma AllIsAvailable(t: Tcb)
    requires Wf(t) && ReadyToSend(t)
    ensures Available(t) > 0 && !NagleHolds(t, Available(t))
  {
    assert InFlight(t) == 0 && Useable(t) == Window(t) > 0;
  }

  lemma NextIsSent(t: Tcb, n: nat, now: nat, w: Writer)
    requires Wf(t) && 0 < n <= t.snd.una + t.snd.buf.len - t.snd.nxt && w(t.io.writes).Success?
    ensures SendNext(t, n, now, w).0
  {
    var u := CutNext(t, n);
    var k := FirstUnsent(u.snd.slist);
    UnsentFits(u.snd.slist, u.snd.una, u.snd.nxt, u.snd.una + u.snd.buf.len, k);
    AcceptedWriteSends(u, u.snd.slist[k], Min(u.snd.slist[k].len, u.cc.mss), now, w);
  }

  lemma TurnGoesOn(t: Tcb, flags: SendFlags, now: nat, w: Writer)
    requires Wf(t) && ReadyToSend(t) && w(t.io.writes).Success?
    ensures !Turn(t, flags, now, w).0
  {
    AllIsAvailable(t);
    hide Available, NagleHolds, SendNext;
    NextIsSent(t, Available(t), now, w);
  }

  lemma LoopGetsOn(t: Tcb, flags: SendFlags, now: nat, w: Writer)
    requires Wf(t) && !Turn(t, flags, now, w).0
    ensures t.snd.nxt < AttemptLoop(t, flags, now, w).snd.nxt
  {
    hide Turn, Wf;
  }

  /** With nothing in flight, bytes queued and the peer's window open, the first write that the
      network accepts puts bytes in flight. */
  lemma SendingGetsOn(t: Tcb, flags: SendFlags, now: nat, w: Writer)
    requires Wf(t) && ReadyToSend(t) && w(t.io.writes).Success?
    ensures AttemptSend(t, flags, now, w).snd.una < AttemptSend(t, flags, now, w).snd.nxt
  {
    hide AttemptLoop, Turn, SndOk, CcOk, Keeps, Quiet;
    TurnGoesOn(Restarted(t, now), flags, now, w);
    LoopGetsOn(Restarted(t, now), flags, now, w);
  }

  // ---- Deadlines ----

  lemma DiffShifts(base: nat, r: nat, now: nat)
    requires TimeDiff32(base, now) + r < 0x8000_0000
    ensures TimeDiff32(base + r, now) == TimeDiff32(base, now) + r
  {
    var d, k := Wrap32(base - now), (base - now) / U32;
    assert base - now == k * U32 + d;
    assert base + r - now == k * U32 + (d + r);
  }

  lemma NoDiff(now: nat)
    ensures TimeDiff32(now, now) == 0
  {
  }

  lemma WaitFromNowIsAhead(wait: nat, now: nat)
    requires 0 < wait < 0x8000_0000
    ensures TimeDiff32(now + wait, now) == wait
  {
    NoDiff(now);
    DiffShifts(now, wait, now);
  }

  /** A deadline that lies ahead stays ahead when the wait gets longer, unless the signed 32-bit
      difference wraps. */
  lemma LongerWait(base: nat, a: nat, b: nat, now: nat)
    requires TimeDiff32(base + a, now) > 0 && a <= b <= MAX_RTO
    ensures TimeDiff32(base + b, now) > 0 <==> TimeDiff32(base + a, now) + (b - a) < 0x8000_0000
  {
    var d, k := Wrap32(base + a - now), (base + a - now) / U32;
    assert base + a - now == k * U32 + d;
    assert base + b - now == k * U32 + (d + (b - a));
  }

  /** The retransmit timer was started in so far a future that doubling the wait wraps. */
  predicate Wraps(t: Tcb, now: nat) {
    && t.tm.rtoBase != 0
    && TimeDiff32(t.tm.rtoBase + t.tm.rto, now) + (Min(MAX_RTO, t.tm.rto * 2) - t.tm.rto) >= 0x8000_0000
  }

  lemma TimeoutStep(t: Tcb, now: nat, w: Writer)
    requires Wf(t)
    ensures var r := RetransmitOnTimeout(t, now, w);
            r.Fine? ==>
              && !RetransmitDue(r.t, now)
              && if RetransmitDue(t, now) then !Wraps(r.t, now) else r.t == t
  {
    hide TimeDiff32;
    FrontInFlight(t.snd.slist, t.snd.una, t.snd.nxt, t.snd.una + t.snd.buf.len);
    var r := RetransmitOnTimeout(t, now, w);
    if r.Fine? && RetransmitDue(t, now) {
      assert r.t.tm.rtoBase == now;
      WaitFromNowIsAhead(r.t.tm.rto, now);
    }
  }

  lemma ProbeStep(t: Tcb, now: nat, w: Writer)
    requires Wf(t) && !RetransmitDue(t, now)
    ensures var r := Probe(t, now, w);
            r.Fine? ==>
              && !ProbeDue(r.t, now)
              && (RetransmitDue(r.t, now) <==> ProbeDue(t, now) && Wraps(t, now))
  {
    hide TimeDiff32;
    var r := Probe(t, now, w);
    if r.Fine? && ProbeDue(t, now) {
      WaitFromNowIsAhead(r.t.tm.rto, now);
      if t.tm.rtoBase != 0 {
        LongerWait(t.tm.rtoBase, t.tm.rto, r.t.tm.rto, now);
      }
    }
  }

  lemma AckStep(t: Tcb, now: nat, w: Writer)
    requires Wf(t) && !ProbeDue(t, now)
    ensures var u := AckOnTime(t, now, w);
            (RetransmitDue(u, now) <==> RetransmitDue(t, now)) && !ProbeDue(u, now) && !AckDue(u, now)
  {
    hide TimeDiff32;
  }

  predicate NothingDue(t: Tcb, now: nat) {
    !RetransmitDue(t, now) && !ProbeDue(t, now) && !AckDue(t, now)
  }

  /** The clock finds a probe due while the retransmit deadline is about half the clock's range
      away. */
  predicate LosesTrack(t: Tcb, now: nat) {
    !RetransmitDue(t, now) && ProbeDue(t, now) && Wraps(t, now)
  }

  /** After the clock has been served, every deadline of an open connection lies ahead, and the
      next call is wanted after 1 to 4000 ms: exactly unless a retransmit timer started in a far
      future meets a probe, whose doubled wait wraps around. */
  lemma DeadlinesLieAhead(t: Tcb, now: nat, w: Writer)
    requires Wf(t) && !t.halted
    ensures var u := NotifyClock(t, now, w);
            u.state.Closed? || (NothingDue(u, now) <==> !LosesTrack(t, now))
    ensures var u := NotifyClock(t, now, w);
            var (more, wait) := NextClock(u, now);
            !u.state.Closed? && !LosesTrack(t, now) && more ==> 1 <= wait <= DEFAULT_TIMEOUT
  {
    hide TimeDiff32, RetransmitOnTimeout, Probe, AckOnTime;
    if !t.state.Closed? {
      TimeoutStep(t, now, w);
      var a := RetransmitOnTimeout(t, now, w);
      if a.Fine? {
        ProbeStep(a.t, now, w);
        var b := Probe(a.t, now, w);
        if b.Fine? {
          AckStep(b.t, now, w);
        }
      }
    }
  }

  /** A timer that was started at most 2^30 ms ahead of the clock never loses track. */
  lemma SaneTimersKeepTrack(t: Tcb, now: nat)
    requires Wf(t) && (t.tm.rtoBase != 0 ==> TimeDiff32(t.tm.rtoBase, now) <= 0x4000_0000)
    ensures !LosesTrack(t, now)
  {
    if t.tm.rtoBase != 0 {
      DiffShifts(t.tm.rtoBase, t.tm.rto, now);
    }
  }

  /** A shut window is probed with a packet that repeats the last number, and the wait doubled; but
      after 15 seconds without a packet of the peer the connection is given up. */
  lemma ShutWindowIsProbed(t: Tcb, now: nat, w: Writer)
    requires Wf(t) && !t.halted && !t.state.Closed? && !RetransmitDue(t, now)
    requires t.snd.wnd == 0 && TimeDiff32(t.tm.lastsend + t.tm.rto, now) <= 0
    ensures var u := NotifyClock(t, now, w);
            if TimeDiff32(now, t.tm.lastrecv) >= 15000
            then u.state.Closed? && u.io == t.io.(events := t.io.events + [ClosedWith(ConnectionAborted)])
            else
              && u.state == t.state && u.tm.rto == Min(MAX_RTO, 2 * t.tm.rto) && t.io.out <= u.io.out
              && (w(t.io.writes).Success? ==>
                    && |t.io.out| < |u.io.out|
                    && var p := u.io.out[|t.io.out|];
                       p.data == [] && p.seqno == Wrap32(t.snd.nxt - 1) && p.ack == t.rcv.nxt)
  {
    hide SendAck, SndOk, CcOk, TimeDiff32, Armed, Steady, Roomy, Acknowledging, Wrap32;
    if TimeDiff32(now, t.tm.lastrecv) < 15000 {
      ProbePacket(t, Wrap32(t.snd.nxt - 1), now, w);
      var a := Probe(t, now, w).t;
      ProbePacket(a, a.snd.nxt, now, w);
    }
  }

  lemma ProbePacket(t: Tcb, seqno: nat, now: nat, w: Writer)
    requires Wf(t)
    ensures var u := SendAck(t, seqno, now, w);
            && u.state == t.state && u.tm.rto == t.tm.rto && t.io.out <= u.io.out
            && (w(t.io.writes).Success? ==>
                  && |u.io.out| == |t.io.out| + 1
                  && var p := u.io.out[|t.io.out|];
                     p.data == [] && p.seqno == seqno && p.ack == t.rcv.nxt)
  {
    assert t.snd.buf.Valid();
    hide SndOk, CcOk, Acknowledging, Quiet, WindowField;
  }

  lemma Later(base: int, now: nat, d: nat)
    requires d < TimeDiff32(base, now)
    ensures TimeDiff32(base, now + d) == TimeDiff32(base, now) - d
  {
    var e, k := Wrap32(base - now), (base - now) / U32;
    assert base - now == k * U32 + e;
    assert base - (now + d) == k * U32 + (e - d);
  }

  lemma AtLast(base: int, now: nat)
    requires 0 < TimeDiff32(base, now)
    ensures TimeDiff32(base, now + TimeDiff32(base, now)) == 0
  {
    var e, k := Wrap32(base - now), (base - now) / U32;
    assert base - now == k * U32 + e;
    assert base - (now + e) == k * U32;
  }

  /** The wait that `getNextClock` asks for, when every deadline lies ahead, is neither too long nor too
      short: nothing becomes due before it is over, and then something is, or 4 seconds have passed. */
  lemma WaitMeetsDeadline(t: Tcb, now: nat, d: nat)
    requires !t.state.Closed? && NextClock(t, now).0 && NothingDue(t, now)
    ensures var wait := NextClock(t, now).1;
            && 0 < wait <= DEFAULT_TIMEOUT
            && (d < wait ==> NothingDue(t, now + d))
            && (d == wait < DEFAULT_TIMEOUT ==> !NothingDue(t, now + d))
  {
    hide TimeDiff32;
    var wait := NextClock(t, now).1;
    var (a, b, c) := (t.tm.tAck + t.ackDelay, t.tm.rtoBase + t.tm.rto, t.tm.lastsend + t.tm.rto);
    if d < wait {
      if t.tm.tAck != 0 { Later(a, now, d); }
      if t.tm.rtoBase != 0 { Later(b, now, d); }
      if t.snd.wnd == 0 { Later(c, now, d); }
    } else if d == wait < DEFAULT_TIMEOUT {
      if t.tm.tAck != 0 && TimeDiff32(a, now) == wait { AtLast(a, now); }
      if t.tm.rtoBase != 0 && TimeDiff32(b, now) == wait { AtLast(b, now); }
      if t.snd.wnd == 0 && TimeDiff32(c, now) == wait { AtLast(c, now); }
    }
  }

  /** The connection may be dropped exactly when it was closed by force; or it was closed, and it is
      not open, or everything is acknowledged in both directions. */
  lemma DroppedWhenClosed(t: Tcb, force: bool, now: nat)
    ensures !NextClock(Close(t, force), now).0 <==>
            force || !t.state.Established? || (t.snd.buf.len == 0 && t.tm.tAck == 0)
    ensures t.shutdown.NoShutdown? ==> NextClock(t, now).0
  {
  }

  // ---- Round-trip estimation ----

  /** The estimator after samples of the round-trip time. */
  function Sampled(m: Tm, rtts: seq<nat>): Tm {
    if rtts == [] then m else Estimate(Sampled(m, rtts[..|rtts| - 1]), rtts[|rtts| - 1])
  }

  lemma AverageBetween(srtt: nat, rtt: nat, lo: nat, hi: nat)
    requires lo <= srtt <= hi && lo <= rtt <= hi
    ensures lo <= (7 * srtt + rtt) / 8 <= hi
  {
  }

  /** The smoothed round-trip time lies between the least and the greatest sample, and the
      timeout above it, within its bounds. */
  lemma {:induction false} SmoothedLiesWithinSamples(m: Tm, rtts: seq<nat>, lo: nat, hi: nat)
    requires m.srtt == 0 && rtts != []
    requires forall k :: 0 <= k < |rtts| ==> lo <= rtts[k] <= hi
    ensures var e := Sampled(m, rtts);
            && lo <= e.srtt <= hi
            && MIN_RTO <= e.rto <= MAX_RTO && Min(MAX_RTO, e.srtt + 1) <= e.rto
  {
    var before := rtts[..|rtts| - 1];
    var e := Sampled(m, before);
    if before != [] {
      SmoothedLiesWithinSamples(m, before, lo, hi);
      AverageBetween(e.srtt, rtts[|rtts| - 1], lo, hi);
    } else {
      assert e == m;
    }
  }
}
