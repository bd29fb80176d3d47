/** How the congestion window moves outside of recovery and at its end, over runs of an endpoint;
    and that sending stops only where a window, Nagle's rule or the lack of data stops it. */
module TcpGrowth {
  import opened Numbers
  import opened FifoBuffers
  import opened TcpSegments
  import opened TcpTypes
  import opened TcpSender
  import opened TcpReceiver
  import opened TcpEndpoint
  import opened TcpSystem
  import opened TcpPolicies
  import opened TcpRuns
  import opened TcpDuplicates
  import opened TcpRecovery
  import opened TcpTimers
  import opened TcpReplies

  // ---- What sending makes of the window ----

  /** Sending leaves the window as it was, unless an idle time or a fall of the segment size sets it
      anew. */
  predicate Leaves(c: Cc, d: Cc, idle: bool) {
    && SameRecovery(c, d) && c.level <= d.level
    && (d.level > c.level ==> d.cwnd == 2 * d.mss)
    && (d.level == c.level ==> d.mss == c.mss && d.cwnd == if idle then c.mss else c.cwnd)
  }

  lemma SendingLeaves(t: Tcb, flags: SendFlags, now: nat, w: Writer)
    requires Wf(t)
    ensures var u := AttemptSend(t, flags, now, w);
            Leaves(t.cc, u.cc, Idle(t, now)) && u.tm.rto == t.tm.rto && u.state == t.state
            && u.halted == t.halted && t.io.out <= u.io.out
  {
    AttemptSendsNew(t, flags, now, w);
    hide AttemptSend, SndOk, PutsOut, Restarted, Reach, Idle, Steady, Roomy;
  }

  /** The same for the rest of a packet: nothing is sent when an assertion fails. */
  ghost predicate LeftBy(t: Tcb, u: Tcb, now: nat) {
    && u.tm.rto == t.tm.rto && u.state == t.state && t.io.out <= u.io.out
    && if u.halted then u.cc == t.cc else Leaves(t.cc, u.cc, Idle(t, now))
  }

  lemma PayloadLeaves(t: Tcb, p: Packet, now: nat, w: Writer)
    requires Wf(t) && !t.halted
    ensures LeftBy(t, Payload(t, p, now, w).1, now)
  {
    var v := ArriveAt(t, p);
    var x := WithRcv(t, v.rcv, v.halted);
    AlwaysTaken(t, p);
    hide ArriveAt, AttemptSend, ReplyFlags, SndOk, CcOk, Keeps, Leaves, Acknowledging, TimeDiff32;
    SendingLeaves(x, if v.recovered then ImmediateAck else ReplyFlags(t, p), now, w);
  }

  lemma RestLeaves(t: Tcb, p: Packet, connect: bool, now: nat, w: Writer)
    requires Wf(t) && !t.halted && t.state.Established?
    ensures LeftBy(t, Rest(t, p, connect, now, w).1, now)
  {
    hide Payload, Refill, SndOk, CcOk, Keeps, Leaves, Quiet, TimeDiff32;
    RefillKeeps(t);
    RefillOut(t);
    PayloadLeaves(AfterAck(t, connect), p, now, w);
  }

  // ---- A packet arrives ----

  /** Looking at the control data of a packet leaves the window alone when the receive buffer stays. */
  ghost predicate SameControl(t: Tcb, u: Tcb) {
    u.cc == t.cc && u.tm.lastsend == t.tm.lastsend && u.tm.rto == t.tm.rto && u.state == t.state && u.io == t.io
  }

  lemma ControlKeepsCc(t: Tcb, p: Packet)
    requires Wf(t) && t.state.Established? && !Renegotiates(t, p)
    ensures SameControl(t, Control(t, p).t) && (Control(t, p).Accept? ==> Control(t, p).t.halted == t.halted)
  {
    hide OptionsOf, Reverted, SndOk, CcOk, Quiet, Armed, Steady, Roomy;
  }

  lemma HearingKeepsCc(t: Tcb, p: Packet, now: nat)
    requires Wf(t) && t.state.Established? && !Renegotiates(t, p)
    ensures SameControl(t, Hearing(t, p, now)) && (Hears(t, p, now) ==> !Hearing(t, p, now).halted)
  {
    hide Control, OptionsOf, SndOk, CcOk, Quiet, Armed, Steady, Roomy;
    ControlKeepsCc(Received(t, now), p);
  }

  /** What processing a heard packet comes to: its acknowledgment, then an attempt to send. */
  lemma HeardLeaves(t: Tcb, p: Packet, now: nat, w: Writer)
    requires Wf(t) && t.state.Established? && Hears(t, p, now) && !Renegotiates(t, p)
    ensures var (r, u) := (Acknowledge(Hearing(t, p, now), p, now, w), Process(t, p, now, w).1);
            && (r.Dropped? ==> u == r.t)
            && (r.Fine? && r.t.state.Established? && !r.t.halted ==> LeftBy(r.t, u, now))
  {
    ProcessIs(t, p, now, w);
    hide Process, Control, Acknowledge, Rest, Hearing, Hears, LeftBy, SndOk, CcOk, OptionsOf;
    var r := Acknowledge(Hearing(t, p, now), p, now, w);
    if r.Fine? && r.t.state.Established? && !r.t.halted {
      RestLeaves(r.t, p, Control(Received(t, now), p).connect, now, w);
    }
  }

  // ---- New acknowledgments outside of recovery ----

  /** The law of section 3.1 of RFC 5681: below the threshold the window opens by a segment; from it
      on by the whole part of the square of a segment per window, and at least by one byte. */
  predicate Opens(c: Cc, d: Cc) {
    && d.mss == c.mss && d.ssthresh == c.ssthresh && c.cwnd < d.cwnd
    && var more := d.cwnd - c.cwnd;
       if c.cwnd < c.ssthresh then more == c.mss
       else c.mss * c.mss < (more + 1) * c.cwnd && (more == 1 || more * c.cwnd <= c.mss * c.mss)
  }

  lemma WholePart(a: nat, b: nat)
    requires b > 0
    ensures a / b * b <= a < (a / b + 1) * b
  {
  }

  lemma GrowOpens(c: Cc)
    requires c.cwnd > 0 && c.mss > 0
    ensures Opens(c, Grow(c)) && Grow(c).dupAcks == 0 && Grow(c).level == c.level
  {
    WholePart(c.mss * c.mss, c.cwnd);
  }

  /** The connection goes on as it was, but for its windows. */
  ghost predicate GoesOn(t: Tcb, u: Tcb) {
    u.state == t.state && u.halted == t.halted && u.tm.lastsend == t.tm.lastsend
  }

  lemma ProgressOpens(t: Tcb, n: nat, now: nat, w: Writer)
    requires Wf(t) && t.cc.dupAcks < 3
    ensures var r := Progress(t, n, now, w);
            && r.Fine? && GoesOn(t, r.t) && r.t.cc.dupAcks == 0 && r.t.cc.level == t.cc.level
            && Opens(t.cc, r.t.cc)
  {
    GrowOpens(t.cc);
    hide Grow, Opens, SndOk, Keeps, Quiet;
  }

  lemma AckBytesGoesOn(t: Tcb, p: Packet, now: nat)
    requires Wf(t) && t.snd.una < p.ack <= t.snd.nxt
    ensures Wf(t.(tm := EstimateFrom(t.tm, p, now)))
    ensures var u := AckBytes(t.(tm := EstimateFrom(t.tm, p, now)), p, now);
            && GoesOn(t, u) && u.cc == t.cc.(largest := u.cc.largest) && u.io == t.io
            && u.snd.una == p.ack && u.snd.nxt == t.snd.nxt
  {
    hide Freed, TimeDiff32, Acknowledging, Segs, Steady, Roomy, WindowOf;
  }

  lemma OpensFrom(c: Cc, c': Cc, d: Cc)
    requires c' == c.(largest := c'.largest) && Opens(c', d)
    ensures Opens(c, d)
  {
  }

  lemma NewAckOpens(t: Tcb, p: Packet, now: nat, w: Writer)
    requires Wf(t) && t.snd.una < p.ack <= t.snd.nxt && t.cc.dupAcks < 3
    ensures var r := Acknowledge(t, p, now, w);
            && r.Fine? && GoesOn(t, r.t) && r.t.cc.dupAcks == 0 && r.t.cc.level == t.cc.level
            && Opens(t.cc, r.t.cc)
  {
    AckBytesGoesOn(t, p, now);
    var x := AckBytes(t.(tm := EstimateFrom(t.tm, p, now)), p, now);
    hide Progress, AckBytes, EstimateFrom, Opens, Quiet, Segs, CcOk, Keeps;
    ProgressOpens(x, p.ack - t.snd.una, now, w);
    OpensFrom(t.cc, x.cc, Progress(x, p.ack - t.snd.una, now, w).t.cc);
  }

  /** A new acknowledgment, which the peer of an open connection sends. */
  ghost predicate Progresses(t: Tcb, p: Packet, now: nat)
    requires Wf(t)
  {
    && t.state.Established? && Hears(t, p, now) && !Renegotiates(t, p)
    && t.snd.una < p.ack <= t.snd.nxt
  }

  /** Longer than the timeout `rto` since data were sent last. */
  predicate IdleFor(t: Tcb, now: nat, rto: nat) { TimeDiff32(now, t.tm.lastsend) > rto }

  lemma OpensOn(c: Cc, d: Cc, e: Cc)
    requires Opens(c, d) && e.mss == d.mss && e.ssthresh == d.ssthresh && e.cwnd == d.cwnd
    ensures Opens(c, e)
  {
  }

  /** A new acknowledgment outside of recovery opens the window by the law, exactly unless the
      segment size falls when data are sent afterwards, which leaves two segments, or the
      connection was idle, which leaves one. */
  lemma AcknowledgmentOpens(t: Tcb, p: Packet, now: nat, w: Writer)
    requires Wf(t) && Progresses(t, p, now) && t.cc.dupAcks < 3
    ensures var u := Process(t, p, now, w).1;
            && u.state.Established? && u.cc.dupAcks == 0 && u.cc.ssthresh == t.cc.ssthresh
            && t.cc.level <= u.cc.level
            && if u.cc.level > t.cc.level then u.cc.cwnd == 2 * u.cc.mss
               else if IdleFor(t, now, u.tm.rto) && !u.halted then u.cc.cwnd == u.cc.mss == t.cc.mss
               else Opens(t.cc, u.cc)
  {
    HearingKeepsCc(t, p, now);
    HearingSameAcks(t, p, now);
    HearingKeepsNxt(t, p, now);
    var h := Hearing(t, p, now);
    HeardLeaves(t, p, now, w);
    hide Process, Hearing, Hears, Acknowledge, Opens, SndOk, OptionsOf, TimeDiff32;
    NewAckOpens(h, p, now, w);
    var r := Acknowledge(h, p, now, w);
    ThresholdStays(h.cc, r.t.cc);
    if Process(t, p, now, w).1.cc.cwnd == r.t.cc.cwnd && Process(t, p, now, w).1.cc.level == t.cc.level {
      OpensOn(t.cc, r.t.cc, Process(t, p, now, w).1.cc);
    }
  }

  lemma ThresholdStays(c: Cc, d: Cc)
    requires Opens(c, d)
    ensures d.ssthresh == c.ssthresh && d.mss == c.mss
  {
  }

  // ---- Other calls and packets ----

  predicate SameWindow(c: Cc, d: Cc) { d.cwnd == c.cwnd && d.mss == c.mss && d.ssthresh == c.ssthresh }

  lemma SendKeepsWindow(t: Tcb, data: seq<byte>, now: nat, w: Writer)
    requires Wf(t)
    ensures var u := Send(t, data, now, w).1;
            u.cc.level == t.cc.level && !IdleFor(t, now, u.tm.rto) ==> SameWindow(t.cc, u.cc)
  {
    hide AttemptSend, Quiet, Segs, CcOk, Steady, Armed, TimeDiff32;
    if !t.halted && t.state.Established? && t.snd.buf.Free() != 0 {
      SendingLeaves(Queued(t, data), None, now, w);
    }
  }

  lemma ReceiveKeepsWindow(t: Tcb, n: nat, now: nat, w: Writer)
    requires Wf(t)
    ensures var u := Receive(t, n, now, w).2;
            u.cc.level == t.cc.level && !IdleFor(t, now, u.tm.rto) ==> SameWindow(t.cc, u.cc)
  {
    hide AttemptSend, Quiet, SndOk, CcOk, Taken, Reopens, Keeps, Steady, Armed, TimeDiff32;
    if !t.halted && t.state.Established? && t.rcv.buf.len != 0 {
      var bytes := t.rcv.buf.Peek(n, 0);
      SendingLeaves(WithRcv(t, Taken(t.rcv, |bytes|, t.cc.mss), t.halted), ImmediateAck, now, w);
    }
  }

  lemma ClockKeepsWindow(t: Tcb, now: nat, w: Writer)
    requires Wf(t) && !RetransmitDue(t, now)
    ensures SameWindow(t.cc, NotifyClock(t, now, w).cc)
  {
    assert t.snd.buf.Valid();
    hide SendAck, RetransmitDue, Quiet, SndOk, CcOk, Keeps, Steady, Armed, TimeDiff32;
    SendAckKeepsCc(t, Wrap32(t.snd.nxt - 1), now, w);
    var a := Probe(t, now, w);
    if a.Fine? {
      SendAckKeepsCc(a.t, a.t.snd.nxt, now, w);
    }
  }

  lemma SendAckKeepsCc(t: Tcb, seqno: nat, now: nat, w: Writer)
    requires t.snd.buf.Valid()
    ensures SendAck(t, seqno, now, w).cc == t.cc
  {
  }

  lemma UnheardKeepsWindow(t: Tcb, p: Packet, now: nat, w: Writer)
    requires Wf(t) && t.state.Established? && !Hears(t, p, now) && !Renegotiates(t, p)
    ensures SameWindow(t.cc, Process(t, p, now, w).1.cc)
  {
    ControlKeepsCc(Received(t, now), p);
    hide Answer, OptionsOf, SndOk, CcOk, Control, Keeps, Quiet;
  }

  lemma OtherAckKeepsWindow(t: Tcb, p: Packet, now: nat, w: Writer)
    requires Wf(t) && !(t.snd.una < p.ack <= t.snd.nxt) && t.cc.dupAcks < 3
    ensures Waits(t, Acknowledge(t, p, now, w))
  {
    hide Repeated, NewAck, WindowOf, Segs, CcOk, Waits, Keeps, Quiet;
    WaitsAtAll(t);
    if p.ack == t.snd.una {
      var x := t.(snd := t.snd.(wnd := WindowOf(p, t.snd.scale)));
      RepeatedWaits(x, p.data == [], now, w);
      WaitsFrom(t, x, Repeated(x, p.data == [], now, w));
    } else {
      hide Acknowledge;
      NotAcknowledged(t, p, now, w);
    }
  }

  /** The window is as it was as long as no third duplicate has come, which may end the connection. */
  ghost predicate Waits(t: Tcb, r: Acked) {
    && (r.Fine? && r.t.cc.dupAcks < 3 ==> SameWindow(t.cc, r.t.cc) && r.t.cc.level == t.cc.level && GoesOn(t, r.t))
    && (r.Fine? && r.t.cc.dupAcks >= 3 ==> r.t.cc.dupAcks == 3 && r.t.state == t.state && r.t.halted == t.halted)
    && (r.Dropped? ==> r.t.state.Closed?)
  }

  lemma WaitsAtAll(t: Tcb)
    requires t.cc.dupAcks < 3
    ensures Waits(t, Fine(t))
  {
  }

  lemma WaitsFrom(t: Tcb, x: Tcb, r: Acked)
    requires x == t.(snd := x.snd) && Waits(x, r)
    ensures Waits(t, r)
  {
  }

  lemma NotAcknowledged(t: Tcb, p: Packet, now: nat, w: Writer)
    requires Wf(t) && !(t.snd.una < p.ack <= t.snd.nxt) && p.ack != t.snd.una
    ensures Acknowledge(t, p, now, w) == Fine(t)
  {
  }

  lemma RepeatedWaits(t: Tcb, bare: bool, now: nat, w: Writer)
    requires Wf(t) && t.cc.dupAcks < 3
    ensures Waits(t, Repeated(t, bare, now, w))
  {
    var x := t.(cc := t.cc.(dupAcks := (t.cc.dupAcks + 1) % 256));
    hide Retransmit, EnterRecovery, SndOk, Keeps, Steady, Armed, Roomy, Quiet;
    if bare && t.snd.una != t.snd.nxt && t.cc.dupAcks == 2 {
      ThirdCounted(x, now, w);
    }
  }

  lemma ThirdCounted(t: Tcb, now: nat, w: Writer)
    requires Wf(t) && t.snd.una != t.snd.nxt && t.cc.dupAcks == 3
    ensures var r := CountDuplicate(t, now, w);
            && (r.Fine? ==> r.t.cc.dupAcks == 3 && r.t.state == t.state && r.t.halted == t.halted)
            && (r.Dropped? ==> r.t.state.Closed?)
  {
    hide Transmit, WindowOf, Segs, Keeps, Steady, Armed, Roomy, Acknowledging;
  }

  lemma HeardKeepsWindow(t: Tcb, p: Packet, now: nat, w: Writer)
    requires Wf(t) && t.state.Established? && Hears(t, p, now) && !Renegotiates(t, p)
    requires !(t.snd.una < p.ack <= t.snd.nxt) && t.cc.dupAcks < 3
    ensures var u := Process(t, p, now, w).1;
            u.state.Established? && !u.halted && u.cc.dupAcks < 3 && u.cc.level == t.cc.level
            && !IdleFor(t, now, u.tm.rto) ==>
              SameWindow(t.cc, u.cc)
  {
    HearingKeepsCc(t, p, now);
    HearingSameAcks(t, p, now);
    HearingKeepsNxt(t, p, now);
    HeardLeaves(t, p, now, w);
    hide Process, Hearing, Hears, Acknowledge, SndOk, CcOk, OptionsOf, TimeDiff32;
    OtherAckKeepsWindow(Hearing(t, p, now), p, now, w);
  }

  // ---- Any run outside of recovery ----

  /** A new acknowledgment is looked at. */
  predicate IsNewAck(t: Tcb, op: Op)
    requires Wf(t)
  {
    IsHeard(t, op) && t.snd.una < op.p.ack <= t.snd.nxt
  }

  /** Nothing sets the windows of an open connection anew: no third duplicate, no timeout, no MTU
      advice, no connect message that reverts the receive buffer, no fall of the segment size and no
      idle time before sending. */
  ghost predicate Undisturbing(t: Tcb, u: Tcb, op: Op)
    requires Wf(t)
  {
    && t.state.Established? && u.state.Established? && !u.halted
    && t.cc.dupAcks < 3 && u.cc.dupAcks < 3 && u.cc.level == t.cc.level
    && match op
       case DoMtu(_) => false
       case DoClock(now, w) => !RetransmitDue(t, now)
       case Arrives(p, now, w) => !Renegotiates(t, p) && !IdleFor(t, now, u.tm.rto)
       case DoSend(data, now, w) => !IdleFor(t, now, u.tm.rto)
       case DoReceive(n, now, w) => !IdleFor(t, now, u.tm.rto)
       case _ => true
  }

  lemma NewAckArrives(t: Tcb, op: Op)
    requires Wf(t) && IsNewAck(t, op) && Undisturbing(t, Then(t, op), op)
    ensures Opens(t.cc, Then(t, op).cc)
  {
    hide Then, Process, Hears, Opens, Renegotiates, Wf, TimeDiff32;
    ThenProcesses(t, op);
    AcknowledgmentOpens(t, op.p, op.now, op.w);
  }

  lemma OtherArrives(t: Tcb, op: Op)
    requires Wf(t) && op.Arrives? && !IsNewAck(t, op) && Undisturbing(t, Then(t, op), op)
    ensures SameWindow(t.cc, Then(t, op).cc)
  {
    hide Then, Process, Hears, Renegotiates, Wf, TimeDiff32;
    ThenProcesses(t, op);
    if IsHeard(t, op) {
      HeardKeepsWindow(t, op.p, op.now, op.w);
    } else {
      UnheardKeepsWindow(t, op.p, op.now, op.w);
    }
  }

  /** So only new acknowledgments move the window, and they by the law. */
  lemma ThenOpens(t: Tcb, op: Op)
    requires Wf(t) && Undisturbing(t, Then(t, op), op)
    ensures if IsNewAck(t, op) then Opens(t.cc, Then(t, op).cc) else SameWindow(t.cc, Then(t, op).cc)
  {
    if IsNewAck(t, op) {
      NewAckArrives(t, op);
    } else if op.Arrives? {
      OtherArrives(t, op);
    } else {
      hide Send, Receive, NotifyClock, Hears, RetransmitDue, Opens, SndOk, CcOk, TimeDiff32, AttemptSend;
      match op
      case DoConnect(now, w) =>
      case DoSend(data, now, w) => SendKeepsWindow(t, data, now, w);
      case DoReceive(n, now, w) => ReceiveKeepsWindow(t, n, now, w);
      case DoClock(now, w) => ClockKeepsWindow(t, now, w);
      case _ =>
    }
  }

  /** Nothing disturbs the run. */
  ghost predicate Calmly(t: Tcb, ops: seq<Op>)
    requires Wf(t)
  {
    ops != [] ==>
      var before := ops[..|ops| - 1];
      Calmly(t, before) && Undisturbing(After(t, before), After(t, ops), ops[|ops| - 1])
  }

  /** How many new acknowledgments arrive. */
  function NewAcks(t: Tcb, ops: seq<Op>): nat
    requires Wf(t)
  {
    if ops == [] then 0
    else
      var before := ops[..|ops| - 1];
      NewAcks(t, before) + if IsNewAck(After(t, before), ops[|ops| - 1]) then 1 else 0
  }

  /** `k` acknowledgments have opened the window from `c` to `d`: by a segment each as long as it was
      below the threshold before each; and beyond the threshold by one at least, and by no more than
      the square of a segment per window, if that is a byte. */
  predicate Opened(c: Cc, d: Cc, k: nat) {
    && d.mss == c.mss && d.ssthresh == c.ssthresh && c.cwnd + k <= d.cwnd
    && (k > 0 && c.cwnd + (k - 1) * c.mss < c.ssthresh ==> d.cwnd == c.cwnd + k * c.mss)
    && (k == 0 ==> d.cwnd == c.cwnd)
    && (c.cwnd >= c.ssthresh ==>
          if c.cwnd <= c.mss * c.mss then (d.cwnd - c.cwnd) * c.cwnd <= k * (c.mss * c.mss)
          else d.cwnd == c.cwnd + k)
  }

  lemma AlwaysAByte(c: Cc, d: Cc)
    requires Opens(c, d) && c.mss >= 1
    ensures c.cwnd + 1 <= d.cwnd
  {
  }

  /** The slow start goes on. */
  lemma OneMoreSegment(c: Cc, d: Cc, e: Cc, k: nat)
    requires Opened(c, d, k) && Opens(d, e) && c.mss >= 1
    ensures c.cwnd + k * c.mss < c.ssthresh ==> e.cwnd == c.cwnd + (k + 1) * c.mss
  {
    if c.cwnd + k * c.mss < c.ssthresh {
      OneMoreTimes(k, c.mss);
      if k > 0 {
        OneMoreTimes(k - 1, c.mss);
      }
    }
  }

  lemma MoreAtMost(a: nat, b: nat, w: nat, v: nat, k: nat, s: nat)
    requires a * w <= k * s && b * v <= s && w <= v
    ensures (a + b) * w <= (k + 1) * s
  {
    Timeses(b, w, v);
    assert (a + b) * w == a * w + b * w;
    assert (k + 1) * s == k * s + s;
  }

  lemma FewBytes(more: nat, w: nat, s: nat)
    requires (more == 1 || more * w <= s) && 0 < w && more > 0
    ensures s < w ==> more == 1
    ensures w <= s ==> more * w <= s
  {
    if more > 1 {
      Timeses(w, 1, more);
      assert w * more == more * w;
    }
  }

  /** Congestion avoidance goes on. */
  lemma OneMoreStep(c: Cc, d: Cc, e: Cc, k: nat)
    requires Opened(c, d, k) && Opens(d, e) && c.mss >= 1 && c.cwnd >= 1 && c.cwnd >= c.ssthresh
    ensures if c.cwnd <= c.mss * c.mss then (e.cwnd - c.cwnd) * c.cwnd <= (k + 1) * (c.mss * c.mss)
            else e.cwnd == c.cwnd + (k + 1)
  {
    var s, more := c.mss * c.mss, e.cwnd - d.cwnd;
    if c.cwnd <= s {
      if more == 1 {
        MoreAtMost(d.cwnd - c.cwnd, 1, c.cwnd, c.cwnd, k, s);
      } else {
        MoreAtMost(d.cwnd - c.cwnd, more, c.cwnd, d.cwnd, k, s);
      }
    } else {
      FewBytes(more, d.cwnd, s);
    }
  }

  lemma OneMoreOpened(c: Cc, d: Cc, e: Cc, k: nat)
    requires Opened(c, d, k) && Opens(d, e) && c.mss >= 1 && c.cwnd >= 1
    ensures Opened(c, e, k + 1)
  {
    AlwaysAByte(d, e);
    OneMoreSegment(c, d, e, k);
    if c.cwnd >= c.ssthresh {
      OneMoreStep(c, d, e, k);
    }
    hide Opens;
  }

  lemma NotOpened(c: Cc, d: Cc, e: Cc, k: nat)
    requires Opened(c, d, k) && SameWindow(d, e)
    ensures Opened(c, e, k)
  {
  }

  lemma NotYetOpened(c: Cc)
    ensures Opened(c, c, 0)
  {
  }

  lemma NoneYet(t: Tcb)
    requires Wf(t)
    ensures After(t, []) == t
  {
    hide Then;
  }

  lemma WindowsArePositive(t: Tcb)
    requires Wf(t)
    ensures t.cc.mss >= 1 && t.cc.cwnd >= 1
  {
  }

  lemma {:induction false} RunOpens(t: Tcb, ops: seq<Op>)
    requires Wf(t) && Calmly(t, ops)
    ensures Opened(t.cc, After(t, ops).cc, NewAcks(t, ops))
  {
    hide After, Then, Undisturbing, IsNewAck, Opened, Opens, SameWindow, Wf;
    if ops == [] {
      NoneYet(t);
      NotYetOpened(t.cc);
    } else {
      var before, last := ops[..|ops| - 1], ops[|ops| - 1];
      RunOpens(t, before);
      AfterLast(t, ops);
      WindowsArePositive(t);
      var u := After(t, before);
      ThenOpens(u, last);
      if IsNewAck(u, last) {
        OneMoreOpened(t.cc, u.cc, Then(u, last).cc, NewAcks(t, before));
      } else {
        NotOpened(t.cc, u.cc, Then(u, last).cc, NewAcks(t, before));
      }
    }
  }

  /** Slow start, section 3.1 of RFC 5681: in a run that nothing disturbs, with any calls and packets,
      the window opens by one segment for each new acknowledgment that finds it below the threshold. */
  lemma SlowStart(t: Tcb, ops: seq<Op>)
    requires Wf(t) && Calmly(t, ops)
    ensures var (k, u) := (NewAcks(t, ops), After(t, ops));
            && u.cc.mss == t.cc.mss && u.cc.ssthresh == t.cc.ssthresh
            && (k == 0 || t.cc.cwnd + (k - 1) * t.cc.mss < t.cc.ssthresh ==>
                  u.cc.cwnd == t.cc.cwnd + k * t.cc.mss)
  {
    hide After, Then, NewAcks, Calmly, Opened, Wf;
    RunOpens(t, ops);
    OpenedBySegments(t.cc, After(t, ops).cc, NewAcks(t, ops));
  }

  lemma OpenedBySegments(c: Cc, d: Cc, k: nat)
    requires Opened(c, d, k)
    ensures d.mss == c.mss && d.ssthresh == c.ssthresh
    ensures k == 0 || c.cwnd + (k - 1) * c.mss < c.ssthresh ==> d.cwnd == c.cwnd + k * c.mss
  {
  }

  /** Congestion avoidance, section 3.1 of RFC 5681: beyond the threshold each new acknowledgment
      opens the window, and as many as it holds segments open it by one segment at most, or by one
      byte each. */
  lemma CongestionAvoidance(t: Tcb, ops: seq<Op>)
    requires Wf(t) && Calmly(t, ops) && t.cc.cwnd >= t.cc.ssthresh
    ensures var (k, u) := (NewAcks(t, ops), After(t, ops));
            && t.cc.cwnd + k <= u.cc.cwnd
            && (k * t.cc.mss <= t.cc.cwnd ==> u.cc.cwnd <= t.cc.cwnd + Max(t.cc.mss, k))
  {
    hide After, Then, NewAcks, Calmly, Opened, Wf;
    RunOpens(t, ops);
    WindowsArePositive(t);
    OpenedByBytes(t.cc, After(t, ops).cc, NewAcks(t, ops));
  }

  lemma OpenedByBytes(c: Cc, d: Cc, k: nat)
    requires Opened(c, d, k) && c.cwnd >= c.ssthresh && c.cwnd > 0
    ensures c.cwnd + k <= d.cwnd
    ensures k * c.mss <= c.cwnd ==> d.cwnd <= c.cwnd + Max(c.mss, k)
  {
    var m, w := c.mss, c.cwnd;
    if k * m <= w <= m * m {
      assert k * (m * m) == k * m * m;
      assert m * (k * m) == k * m * m;
      assert m * w == w * m;
      Timeses(m, k * m, w);
      AtMost(d.cwnd - w, m, w);
    }
  }

  lemma AtMost(a: nat, b: nat, c: nat)
    requires a * c <= b * c && c > 0
    ensures a <= b
  {
    assert c * (b + 1) == b * c + c;
    if a > b {
      Timeses(c, b + 1, a);
    }
  }

  // ---- New acknowledgments during recovery ----

  /** The endpoint that has taken a new acknowledgment off its list, and done nothing else. */
  function Advanced(t: Tcb, p: Packet, now: nat): (u: Tcb)
    requires Wf(t) && t.snd.una < p.ack <= t.snd.nxt
    ensures Wf(u)
  {
    AckBytesGoesOn(t, p, now);
    AckBytes(t.(tm := EstimateFrom(t.tm, p, now)), p, now)
  }

  lemma ExitSetsWindow(t: Tcb, p: Packet, now: nat, w: Writer)
    requires Wf(t) && t.cc.dupAcks >= 3 && t.snd.una < p.ack <= t.snd.nxt && p.ack >= t.cc.recover
    ensures var r := Acknowledge(t, p, now, w);
            && r.Fine? && GoesOn(t, r.t) && r.t.cc.level == t.cc.level && r.t.cc.mss == t.cc.mss
            && r.t.cc.cwnd == Min(t.cc.ssthresh, t.snd.nxt - p.ack + t.cc.mss)
  {
    AckBytesGoesOn(t, p, now);
    hide AckBytes, EstimateFrom, Retransmit, Quiet, Segs, CcOk, Keeps, Grown;
  }

  /** The end of recovery sets the window to the threshold, or to what is in flight and one segment
      if that is less; unless the segment size falls or an idle time restarts it when sending. */
  lemma RecoveryEndSetsWindow(t: Tcb, p: Packet, now: nat, w: Writer)
    requires Wf(t) && Progresses(t, p, now) && t.cc.dupAcks >= 3 && p.ack >= t.cc.recover
    ensures var u := Process(t, p, now, w).1;
            && u.state.Established? && t.cc.level <= u.cc.level
            && if u.cc.level > t.cc.level then u.cc.cwnd == 2 * u.cc.mss
               else if IdleFor(t, now, u.tm.rto) && !u.halted then u.cc.cwnd == u.cc.mss == t.cc.mss
               else u.cc.cwnd == Min(t.cc.ssthresh, t.snd.nxt - p.ack + t.cc.mss)
  {
    HearingKeepsCc(t, p, now);
    HearingSameAcks(t, p, now);
    HearingKeepsNxt(t, p, now);
    HeardLeaves(t, p, now, w);
    hide Process, Hearing, Hears, Acknowledge, SndOk, OptionsOf, TimeDiff32;
    ExitSetsWindow(Hearing(t, p, now), p, now, w);
  }

  /** A partial acknowledgment of `n` bytes has been served: the oldest segment goes out again, and
      the window shrinks by what was acknowledged and opens by a segment. */
  ghost predicate Deflating(x: Tcb, n: nat, w: Writer, r: Acked)
    requires CcOk(x.cc)
  {
    && (r.Dropped? ==> r.t.state.Closed?)
    && (FrontIsTaken(x, w) ==> r.Fine? && FrontSent(x, r.t.io.out))
    && (FrontGoes(x) && !FrontIsTaken(x, w) ==> r.Dropped?)
    && (r.Fine? ==>
          && r.t.state == x.state && r.t.halted == x.halted && x.cc.level <= r.t.cc.level
          && r.t.cc.dupAcks == x.cc.dupAcks
          && (r.t.cc.level == x.cc.level ==>
                r.t.cc.mss == x.cc.mss && r.t.cc.cwnd == Max(x.cc.cwnd - n, 0) + x.cc.mss))
  }

  lemma PartialDeflates(t: Tcb, n: nat, now: nat, w: Writer)
    requires Wf(t) && t.cc.dupAcks >= 3 && t.snd.una < t.cc.recover
    ensures Deflating(t, n, w, Progress(t, n, now, w))
  {
    hide Retransmit, FrontIsTaken, FrontGoes, FrontSent, SndOk, CcOk, Steady, Armed, Roomy, Acknowledging;
    RetransmitFront(t, now, w);
    RetransmitResizes(t, now, w);
  }

  lemma PartialAckDeflates(t: Tcb, p: Packet, now: nat, w: Writer)
    requires Wf(t) && t.cc.dupAcks >= 3 && t.snd.una < p.ack <= t.snd.nxt && p.ack < t.cc.recover
    ensures Deflating(Advanced(t, p, now), p.ack - t.snd.una, w, Acknowledge(t, p, now, w))
  {
    AckBytesGoesOn(t, p, now);
    hide AckBytes, EstimateFrom, Progress, Deflating, Quiet, Segs, CcOk, Keeps;
    PartialDeflates(Advanced(t, p, now), p.ack - t.snd.una, now, w);
  }

  lemma RetransmitIsLastSend(t: Tcb, now: nat, w: Writer)
    requires Wf(t) && t.snd.una < t.snd.nxt && FrontGoes(t)
    ensures var r := Retransmit(t, now, w); r.Fine? ==> r.t.tm.lastsend == now
  {
    FrontIsOld(t);
    SegmentFits(t.snd, 0);
    var s := t.snd.slist[0];
    SentIsLastSend(t, s, Min(s.len, t.cc.mss), now, w);
    hide SendLoop, Segs, CcOk, Tries, Sends, Quiet;
  }

  lemma PartialIsLastSend(t: Tcb, p: Packet, now: nat, w: Writer)
    requires Wf(t) && t.cc.dupAcks >= 3 && t.snd.una < p.ack <= t.snd.nxt && p.ack < t.cc.recover
    requires FrontGoes(Advanced(t, p, now))
    ensures var r := Acknowledge(t, p, now, w); r.Fine? ==> r.t.tm.lastsend == now
  {
    AckBytesGoesOn(t, p, now);
    hide AckBytes, EstimateFrom, Retransmit, FrontGoes, Quiet, Segs, CcOk, Keeps;
    RetransmitIsLastSend(Advanced(t, p, now), now, w);
  }

  lemma JustSentIsNotIdle(t: Tcb, now: nat)
    requires t.tm.lastsend == now
    ensures !Idle(t, now)
  {
  }

  lemma FrontSentFirst(x: Tcb, out: seq<Packet>, more: seq<Packet>)
    requires FrontSent(x, out) && out <= more
    ensures |x.io.out| < |more| && FrontSent(x, more[..|x.io.out| + 1])
  {
    assert more[..|x.io.out| + 1] == out;
  }

  /** A partial acknowledgment, section 3.2 of RFC 6582: the oldest segment that is left goes out
      again before anything else, if the network takes it, and otherwise the connection ends; the
      window shrinks by what was acknowledged and opens by a segment, unless the segment size
      falls. */
  lemma PartialAcknowledgment(t: Tcb, p: Packet, now: nat, w: Writer)
    requires Wf(t) && Progresses(t, p, now) && t.cc.dupAcks >= 3 && p.ack < t.cc.recover
    requires FrontGoes(Advanced(Hearing(t, p, now), p, now))
    ensures var (x, u) := (Advanced(Hearing(t, p, now), p, now), Process(t, p, now, w).1);
            && x.snd.una == p.ack && x.io.out == t.io.out
            && (FrontIsTaken(x, w) <==> !u.state.Closed?)
            && (FrontIsTaken(x, w) ==>
                  && |t.io.out| < |u.io.out| && FrontSent(x, u.io.out[..|t.io.out| + 1])
                  && t.cc.level <= u.cc.level
                  && (u.cc.level == t.cc.level ==>
                        u.cc.cwnd == Max(t.cc.cwnd - (p.ack - t.snd.una), 0) + t.cc.mss))
  {
    hide Process, Hearing, Hears, Acknowledge, Advanced, FrontIsTaken, FrontGoes, FrontSent, Wf, Renegotiates,
         LeftBy, Deflating, Keeps, Quiet, Sound, SameBuffer;
    var h := Hearing(t, p, now);
    HearingAgain(t, p, now);
    HeardLeaves(t, p, now, w);
    AdvancedIs(h, p, now);
    PartialAckDeflates(h, p, now, w);
    PartialIsLastSend(h, p, now, w);
    PartialServed(Advanced(h, p, now), p.ack - t.snd.una, now, w, Acknowledge(h, p, now, w),
                  Process(t, p, now, w).1);
  }

  /** Looking at control data leaves what concerns acknowledgments. */
  lemma HearingAgain(t: Tcb, p: Packet, now: nat)
    requires Wf(t) && Progresses(t, p, now)
    ensures var h := Hearing(t, p, now);
            && h.cc == t.cc && h.io == t.io && h.state.Established? && !h.halted
            && h.snd.una == t.snd.una && h.snd.nxt == t.snd.nxt
  {
    HearingKeepsCc(t, p, now);
    HearingSameAcks(t, p, now);
    HearingKeepsNxt(t, p, now);
    hide Hearing, Hears, Renegotiates, Wf;
  }

  lemma AdvancedIs(t: Tcb, p: Packet, now: nat)
    requires Wf(t) && t.snd.una < p.ack <= t.snd.nxt
    ensures var x := Advanced(t, p, now);
            && CcOk(x.cc) && GoesOn(t, x) && x.io == t.io && x.snd.una == p.ack
            && x.cc == t.cc.(largest := x.cc.largest)
  {
    AckBytesGoesOn(t, p, now);
    hide AckBytes, EstimateFrom, SndOk, Quiet;
  }

  lemma PartialServed(x: Tcb, n: nat, now: nat, w: Writer, r: Acked, u: Tcb)
    requires CcOk(x.cc) && FrontGoes(x) && Deflating(x, n, w, r) && x.state.Established? && !x.halted
    requires r.Dropped? ==> u == r.t
    requires r.Fine? ==> r.t.tm.lastsend == now
    requires r.Fine? && r.t.state.Established? && !r.t.halted ==> LeftBy(r.t, u, now)
    ensures FrontIsTaken(x, w) <==> !u.state.Closed?
    ensures FrontIsTaken(x, w) ==>
              && |x.io.out| < |u.io.out| && FrontSent(x, u.io.out[..|x.io.out| + 1])
              && x.cc.level <= u.cc.level
              && (u.cc.level == x.cc.level ==> u.cc.cwnd == Max(x.cc.cwnd - n, 0) + x.cc.mss)
  {
    hide FrontIsTaken, FrontGoes, FrontSent, CcOk, TimeDiff32;
    if r.Fine? {
      JustSentIsNotIdle(r.t, now);
      FrontSentFirst(x, r.t.io.out, u.io.out);
    }
    hide Idle;
  }

  // ---- Sending goes on as far as it may ----

  /** How far the peer and the congestion control allow: one duplicate allows a segment more, and two
      allow two (limited transmit, RFC 3042). */
  function Allowed(t: Tcb): nat {
    Min(t.snd.wnd, t.cc.cwnd + if t.cc.dupAcks == 1 then t.cc.mss else if t.cc.dupAcks == 2 then 2 * t.cc.mss else 0)
  }

  /** Nothing more is to be sent: all is; or the windows have no room for what could go into the next
      segment, nor for a quarter of themselves; or Nagle's rule waits for a full segment. */
  predicate Drained(t: Tcb) {
    var sent := t.snd.nxt - t.snd.una;
    var next := Min(t.snd.buf.len - sent, t.cc.mss);
    var room := Max(Allowed(t) - sent, 0);
    || next <= 0
    || (room < next && (room == 0 || room * 4 < Allowed(t)))
    || (t.nagling && sent > 0 && Min(room, next) < t.cc.mss)
  }

  lemma StopsDrained(t: Tcb)
    requires Wf(t)
    ensures var n := Available(t); n == 0 || NagleHolds(t, n) ==> Drained(t)
  {
    EndIsLast(t.snd.slist, t.snd.una, t.snd.nxt, t.snd.una + t.snd.buf.len);
    hide Segs;
  }

  lemma SameDrained(t: Tcb, u: Tcb)
    requires Drained(t) && u.snd == t.snd && u.cc == t.cc && u.nagling == t.nagling
    ensures Drained(u)
  {
  }

  lemma TurnDrains(t: Tcb, flags: SendFlags, now: nat, w: Writer)
    requires Wf(t) && TakesAll(t, w)
    ensures var (done, u) := Turn(t, flags, now, w);
            if done then Drained(u) else TakesAll(u, w)
  {
    var n := Available(t);
    hide Available, FinishSend, SendNext, CcOk, Sends, Takes, NextLength, Drained, TakesAll, Acknowledging;
    StopsDrained(t);
    if n == 0 {
      SameDrained(t, FinishSend(t, flags, now, w));
    } else if !NagleHolds(t, n) {
      SendNextTakes(t, n, now, w);
      TakesWhatIsTaken(t, NextLength(t, n), w);
      SendNextWrites(t, n, now, w);
    }
  }

  lemma TakesWhatIsTaken(t: Tcb, n: nat, w: Writer)
    requires CcOk(t.cc) && TakesAll(t, w)
    ensures Takes(t.cc, n, t.io.writes, w)
  {
  }

  lemma SendNextWrites(t: Tcb, n: nat, now: nat, w: Writer)
    requires Wf(t) && 0 < n <= Unsent(t.snd) && n <= t.cc.mss && TakesAll(t, w)
    ensures TakesAll(SendNext(t, n, now, w).1, w)
  {
    hide Transmit, Sends, Takes, TakesAll, SndOk, CcOk;
    TransmitWrites(CutNext(t, n), now, w);
    StillTakes(t, SendNext(t, n, now, w).1, w);
  }

  lemma StillTakes(t: Tcb, u: Tcb, w: Writer)
    ensures TakesAll(t, w) && t.io.writes <= u.io.writes ==> TakesAll(u, w)
  {
  }

  lemma TransmitWrites(t: Tcb, now: nat, w: Writer)
    requires Wf(t) && Transmittable(t.snd, FirstUnsent(t.snd.slist))
    ensures t.io.writes <= Transmit(t, FirstUnsent(t.snd.slist), now, w).1.io.writes
  {
    var i := FirstUnsent(t.snd.slist);
    var s := t.snd.slist[i];
    UnsentFits(t.snd.slist, t.snd.una, t.snd.nxt, t.snd.una + t.snd.buf.len, i);
    EndIsLast(t.snd.slist, t.snd.una, t.snd.nxt, t.snd.una + t.snd.buf.len);
    SendLoopTakes(t, s, Min(s.len, t.cc.mss), now, w);
    hide SendLoop, Segs, Sends, Tries, Takes;
  }

  lemma {:induction false} LoopDrains(t: Tcb, flags: SendFlags, now: nat, w: Writer)
    requires Wf(t) && TakesAll(t, w)
    ensures Drained(AttemptLoop(t, flags, now, w))
    decreases Unsent(t.snd)
  {
    hide Turn, Sends, Drained, TakesAll, CcOk;
    TurnDrains(t, flags, now, w);
    var (done, u) := Turn(t, flags, now, w);
    if !done {
      LoopDrains(u, None, now, w);
    }
  }

  /** When the network takes what is written, an attempt to send stops only where it must. */
  lemma SendingDrains(t: Tcb, flags: SendFlags, now: nat, w: Writer)
    requires Wf(t) && TakesAll(t, w)
    ensures Drained(AttemptSend(t, flags, now, w))
  {
    hide AttemptLoop, Drained;
    LoopDrains(Restarted(t, now), flags, now, w);
  }

  // ---- The timeout ----

  lemma ProgressKeepsTimeout(t: Tcb, n: nat, now: nat, w: Writer)
    requires Wf(t)
    ensures var r := Progress(t, n, now, w);
            if r.Dropped? then r.t.state.Closed?
            else r.t.tm.rto == t.tm.rto && SameEstimate(t.tm, r.t.tm) && r.t.state == t.state && r.t.halted == t.halted
  {
    hide Retransmit, SndOk, CcOk, Keeps, Acknowledging, SameBuffer, SameRecovery, Steady, Roomy, Max, Min;
    ProgressEstimates(t, n, now, w);
  }

  lemma NewAckTimeout(t: Tcb, p: Packet, now: nat, w: Writer)
    requires Wf(t) && t.snd.una < p.ack <= t.snd.nxt
    ensures var r := Acknowledge(t, p, now, w);
            r.Fine? ==>
              && r.t.tm.rto == EstimateFrom(t.tm, p, now).rto && SameEstimate(EstimateFrom(t.tm, p, now), r.t.tm)
              && r.t.state == t.state && r.t.halted == t.halted
    ensures Acknowledge(t, p, now, w).Dropped? ==> Acknowledge(t, p, now, w).t.state.Closed?
  {
    AckBytesGoesOn(t, p, now);
    AckBytesEstimates(t, p, now);
    var x := AckBytes(t.(tm := EstimateFrom(t.tm, p, now)), p, now);
    TimerAlone(t.(tm := EstimateFrom(t.tm, p, now)), p, now);
    hide Progress, AckBytes, EstimateFrom, Quiet, SndOk, CcOk, Keeps;
    ProgressKeepsTimeout(x, p.ack - t.snd.una, now, w);
  }

  lemma TimerAlone(t: Tcb, p: Packet, now: nat)
    requires Wf(t) && t.snd.una < p.ack <= t.snd.nxt
    ensures AckBytes(t, p, now).tm.rto == t.tm.rto
  {
    hide Freed, Segs, Acknowledging;
  }

  lemma TimeoutOf(m: Tm, rtt: nat)
    ensures var e := Estimate(m, rtt);
            e.rto == Min(MAX_RTO, Max(MIN_RTO, e.srtt + Max(1, 4 * e.rttvar)))
  {
  }

  /** A sample sets the timeout to the smoothed time and four times the variation, within its bounds,
      whatever is sent again and whatever else the packet brings. */
  lemma TimeoutIsEstimated(t: Tcb, p: Packet, now: nat, w: Writer)
    requires Wf(t) && Progresses(t, p, now) && p.tsecr != 0 && TimeDiff32(now, p.tsecr) >= 0
    ensures var u := Process(t, p, now, w).1;
            !u.state.Closed? ==>
              u.tm.rto == Min(MAX_RTO, Max(MIN_RTO, u.tm.srtt + Max(1, 4 * u.tm.rttvar)))
  {
    hide Process, Hearing, Hears, Acknowledge, Estimate, Wf, Renegotiates, TimeDiff32, Keeps, Quiet;
    var h := Hearing(t, p, now);
    HearingAgain(t, p, now);
    HeardLeaves(t, p, now, w);
    NewAckTimeout(h, p, now, w);
    HeardProcess(t, p, now, w);
    TimeoutOf(h.tm, TimeDiff32(now, p.tsecr));
  }

  // ---- The segment size ----

  /** `b` is raised from `a` only as far as `least`. */
  predicate RaisedTo(a: nat, b: nat, least: nat) { a <= b && least <= b && (b == a || b == least) }

  /** The segment size is what the MTU leaves; the level names the packet size of the table that is
      next below the MTU; and the windows hold one segment and two, raised only as far. */
  ghost predicate Fits(c: Cc, d: Cc, mtu: nat) {
    && d.mss == mtu - PACKET_OVERHEAD && d.level <= LAST_LEVEL
    && (d.level == LAST_LEVEL || PacketMaximum(d.level) <= mtu)
    && (d.level > 0 ==> mtu < PacketMaximum(d.level - 1))
    && RaisedTo(c.cwnd, d.cwnd, d.mss) && RaisedTo(c.ssthresh, d.ssthresh, 2 * d.mss)
  }

  lemma AdjustFits(c: Cc)
    requires CcOk(c)
    ensures Fits(c, AdjustMtu(c), c.mtuAdvise)
  {
    hide MtuLevel, Steady, Roomy;
    var l := MtuLevel(c.mtuAdvise, 0);
    if l > 0 {
      assert c.mtuAdvise < PacketMaximum(l - 1);
    }
  }

  /** Advice of an MTU is followed at once by an open connection. */
  lemma AdviceIsFollowed(t: Tcb, mtu: nat)
    requires Wf(t) && PACKET_OVERHEAD < mtu <= MAX_PACKET
    ensures var u := NotifyMtu(t, mtu);
            && u.cc.mtuAdvise == mtu
            && (if t.state.Established? then Fits(t.cc, u.cc, mtu) else u.cc == t.cc.(mtuAdvise := mtu))
  {
    hide SndOk, Steady, Roomy, Armed, Quiet, AdjustMtu, Keeps, PacketMaximum;
    var c := t.cc.(mtuAdvise := mtu);
    AdjustFits(c);
    AdvisedStays(c);
    FitsFrom(t.cc, c, AdjustMtu(c), mtu);
    hide Fits;
  }

  lemma FitsFrom(c: Cc, c': Cc, d: Cc, mtu: nat)
    requires c' == c.(mtuAdvise := mtu) && Fits(c', d, mtu)
    ensures Fits(c, d, mtu)
  {
  }

  /** And by any other when it opens. */
  lemma AdviceWaits(t: Tcb)
    requires Wf(t)
    ensures Fits(t.cc, Establish(t).cc, t.cc.mtuAdvise)
  {
    hide SndOk, Steady, Roomy, Armed, Quiet, AdjustMtu, Keeps, Fits;
    AdjustFits(t.cc);
  }

  lemma AdvisedStays(c: Cc)
    requires CcOk(c)
    ensures AdjustMtu(c).mtuAdvise == c.mtuAdvise
  {
  }
}
