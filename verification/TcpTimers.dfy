/** Time over runs of an endpoint: the wait that doubles with every timeout, and the round-trip time
    measured from the packets that arrive. */
module TcpTimers {
  import opened Numbers
  import opened FifoBuffers
  import opened TcpSegments
  import opened TcpTypes
  import opened TcpSender
  import opened TcpEndpoint
  import opened TcpSystem
  import opened TcpPolicies
  import opened TcpRuns
  import opened TcpDuplicates
  import opened TcpRecovery
  import opened TcpProgress

  // ---- Timeouts in a row ----

  /** The longest wait: shorter while connecting. */
  function Limit(state: State): nat {
    if state.Established? || state.Closed? then MAX_RTO else DEF_RTO
  }

  lemma DoubledWithinLimit(a: nat, p: nat, limit: nat)
    ensures Min(limit, Min(limit, a * p) * 2) == Min(limit, a * (2 * p))
  {
    assert a * (2 * p) == 2 * (a * p);
  }

  /** The oldest segment lies within the send buffer, as it always does between two endpoints, or the
      peer has room. */
  predicate InPlace(t: Tcb) {
    t.snd.slist != [] && (t.snd.wnd != 0 || t.snd.una <= t.snd.slist[0].seqno)
  }

  lemma {:induction false} SentIsLastSend(t: Tcb, s: SSegment, n: nat, now: nat, w: Writer)
    requires t.snd.buf.Valid() && CcOk(t.cc) && 0 < n <= s.len
    requires t.snd.una <= s.seqno && s.seqno - t.snd.una + n <= t.snd.buf.len
    ensures var r := SendLoop(t, s, n, now, w);
            r.Sent? ==> r.t.tm.lastsend == now
    decreases LAST_LEVEL - t.cc.level
  {
    hide Quiet, Acknowledging, Tries, SameClock;
    var (res, t1) := SendOnce(t, s, n, now, w);
    if res.TooLarge? {
      TriesAtAll(t, t1);
      var (lower, t2) := Fallback(t1, n);
      TriesAtAll(t1, t2);
      if lower {
        SentIsLastSend(t2, s, t2.cc.mss, now, w);
      }
    }
  }

  lemma MarkKeepsFront(s: Snd, n: nat)
    requires s.slist != [] && n <= s.slist[0].len
    ensures var u := Mark(s, 0, n);
            && u.slist != [] && u.slist[0].seqno == s.slist[0].seqno && u.slist[0].xmit == s.slist[0].xmit + 1
            && u.wnd == s.wnd && u.una == s.una
  {
  }

  /** How often a segment is transmitted at most. */
  function Transmissions(state: State): nat { if state.Established? then 15 else 30 }

  /** The oldest segment has been transmitted once more, which was allowed. */
  predicate OnceMore(t: Tcb, u: Tcb) {
    && t.snd.slist != [] && u.snd.slist != []
    && u.snd.slist[0].xmit == t.snd.slist[0].xmit + 1 <= Transmissions(t.state)
  }

  lemma TransmitInPlace(t: Tcb, now: nat, w: Writer)
    requires Wf(t) && Transmittable(t.snd, 0) && InPlace(t)
    ensures var (ok, u) := Transmit(t, 0, now, w);
            ok ==> InPlace(u) && OnceMore(t, u) && (u.snd.wnd != 0 || u.tm.lastsend == now)
  {
    hide SendLoop, Segs, Tries, Sends, Quiet, Mark, Steady, Roomy, SameBuffer, SameRecovery;
    var s := t.snd.slist[0];
    SegmentFits(t.snd, 0);
    var n := Min(s.len, t.cc.mss);
    if t.snd.una <= s.seqno {
      SentIsLastSend(t, s, n, now, w);
    }
    var r := SendLoop(t, s, n, now, w);
    if r.Sent? {
      TriesAtAll(t, r.t);
      MarkKeepsFront(r.t.snd, r.n);
    }
  }

  /** The retransmission timer has run out, and the connection lives. */
  ghost predicate TimedOut(t: Tcb, u: Tcb, now: nat) {
    && u.state == t.state && u.snd.una == t.snd.una < u.snd.nxt && InPlace(u) && u.halted == t.halted && OnceMore(t, u)
    && u.tm.rto == Min(Limit(t.state), t.tm.rto * 2)
    && u.cc.cwnd == u.cc.mss && u.cc.ssthresh == HalfInFlight(u)
  }

  lemma RetransmitInPlace(t: Tcb, now: nat, w: Writer)
    requires Wf(t) && t.snd.una < t.snd.nxt && InPlace(t)
    ensures var r := Retransmit(t, now, w);
            r.Fine? ==> InPlace(r.t) && OnceMore(t, r.t) && (r.t.snd.wnd != 0 || r.t.tm.lastsend == now)
  {
    FrontIsOld(t);
    TransmitInPlace(t, now, w);
    hide Transmit, SndOk, CcOk, InPlace;
  }

  lemma OneTimeout(t: Tcb, now: nat, w: Writer)
    requires Wf(t) && t.snd.una < t.snd.nxt && RetransmitDue(t, now) && InPlace(t)
    ensures var r := RetransmitOnTimeout(t, now, w);
            r.Fine? ==> TimedOut(t, r.t, now) && (r.t.snd.wnd != 0 || r.t.tm.lastsend == now)
  {
    RetransmitInPlace(t, now, w);
    hide Retransmit, Keeps, Quiet, SndOk, CcOk, RetransmitDue;
  }

  /** After the retransmission no probe is due. */
  lemma NoProbeAfterTimeout(t: Tcb, now: nat)
    requires Wf(t) && (t.snd.wnd != 0 || t.tm.lastsend == now)
    ensures !ProbeDue(t, now)
  {
    WaitFromNowIsAhead(t.tm.rto, now);
  }

  lemma AckOnTimeKeeps(t: Tcb, u: Tcb, now: nat, now': nat, w: Writer)
    requires Wf(u) && TimedOut(t, u, now)
    ensures TimedOut(t, AckOnTime(u, now', w), now)
  {
    hide SndOk, CcOk, Quiet, NewPacket;
  }

  /** The oldest segment has been put on the network first, if the network takes it. */
  ghost predicate Retransmitted(t: Tcb, u: Tcb, w: Writer)
    requires CcOk(t.cc)
  {
    && (FrontGoes(t) ==> (FrontIsTaken(t, w) <==> !u.state.Closed?))
    && (FrontIsTaken(t, w) ==> |t.io.out| < |u.io.out| && FrontSent(t, u.io.out[..|t.io.out| + 1]))
  }

  lemma OneRetransmission(t: Tcb, now: nat, w: Writer)
    requires Wf(t) && !t.state.Closed? && t.snd.una < t.snd.nxt && RetransmitDue(t, now)
    ensures Retransmitted(t, RetransmitOnTimeout(t, now, w).t, w)
  {
    FrontIsOld(t);
    RetransmitFront(t, now, w);
    var out := Retransmit(t, now, w).t.io.out;
    if FrontIsTaken(t, w) {
      assert out[..|t.io.out| + 1] == out;
    }
    hide Retransmit, FrontIsTaken, FrontGoes, FrontSent, Keeps, SndOk, CcOk, RetransmitDue;
  }

  lemma MoreOutRetransmitted(t: Tcb, u: Tcb, v: Tcb, w: Writer)
    requires CcOk(t.cc) && Retransmitted(t, u, w) && u.io.out <= v.io.out && v.state == u.state
    ensures Retransmitted(t, v, w)
  {
    if FrontIsTaken(t, w) {
      assert v.io.out[..|t.io.out| + 1] == u.io.out[..|t.io.out| + 1];
    }
  }

  lemma AckOnTimeState(t: Tcb, now: nat, w: Writer)
    requires Wf(t)
    ensures AckOnTime(t, now, w).state == t.state && t.io.out <= AckOnTime(t, now, w).io.out
  {
    hide SndOk, CcOk, NewPacket;
  }

  lemma NoProbe(t: Tcb, now: nat, w: Writer)
    requires Wf(t) && !ProbeDue(t, now)
    ensures Probe(t, now, w) == Fine(t)
  {
  }

  lemma ClockTimesOut(t: Tcb, now: nat, w: Writer)
    requires Wf(t) && !t.halted && !t.state.Closed? && t.snd.una < t.snd.nxt && RetransmitDue(t, now) && InPlace(t)
    ensures var u := NotifyClock(t, now, w);
            (!u.state.Closed? ==> TimedOut(t, u, now)) && Retransmitted(t, u, w)
  {
    OneTimeout(t, now, w);
    OneRetransmission(t, now, w);
    hide RetransmitOnTimeout, Probe, AckOnTime, Retransmitted, TimedOut, InPlace, RetransmitDue, Quiet, SndOk, CcOk;
    var r := RetransmitOnTimeout(t, now, w);
    if r.Fine? {
      NoProbeAfterTimeout(r.t, now);
      NoProbe(r.t, now, w);
      AckOnTimeKeeps(t, r.t, now, now, w);
      AckOnTimeState(r.t, now, w);
      MoreOutRetransmitted(t, r.t, AckOnTime(r.t, now, w), w);
    }
  }

  predicate AllClocks(ops: seq<Op>) { forall k :: 0 <= k < |ops| ==> ops[k].DoClock? }

  /** Each time the clock is called, the retransmission timer has run out. */
  predicate AllDue(t: Tcb, ops: seq<Op>)
    requires Wf(t) && AllClocks(ops)
  {
    ops != [] ==>
      var before := ops[..|ops| - 1];
      && AllDue(t, before)
      && (!After(t, before).state.Closed? ==> RetransmitDue(After(t, before), ops[|ops| - 1].now))
  }

  /** `u` is `t` after `k` timeouts. */
  ghost predicate HasTimedOut(t: Tcb, u: Tcb, k: nat) {
    && u.state == t.state && u.snd.una == t.snd.una < u.snd.nxt && InPlace(u) && !u.halted
    && t.snd.slist != [] && u.snd.slist[0].xmit == t.snd.slist[0].xmit + k
    && (k > 0 ==> t.snd.slist[0].xmit + k <= Transmissions(t.state))
    && u.tm.rto == Min(Limit(t.state), t.tm.rto * Pow2(k))
    && (k > 0 ==> u.cc.cwnd == u.cc.mss && u.cc.ssthresh == HalfInFlight(u))
  }

  lemma OneMoreTimeout(t: Tcb, u: Tcb, v: Tcb, k: nat, now: nat)
    requires HasTimedOut(t, u, k) && TimedOut(u, v, now)
    ensures HasTimedOut(t, v, k + 1)
  {
    DoubledWithinLimit(t.tm.rto, Pow2(k), Limit(t.state));
    assert Pow2(k + 1) == 2 * Pow2(k);
  }

  lemma ThenTimesOut(t: Tcb, u: Tcb, k: nat, op: Op)
    requires Wf(u) && HasTimedOut(t, u, k) && !u.state.Closed? && op.DoClock? && RetransmitDue(u, op.now)
    ensures var v := Then(u, op);
            (!v.state.Closed? ==> HasTimedOut(t, v, k + 1)) && Retransmitted(u, v, op.w)
  {
    hide NotifyClock, RetransmitDue, InPlace, TimedOut, Retransmitted, SndOk, CcOk;
    ClockTimesOut(u, op.now, op.w);
    ThenClocks(u, op);
    if !Then(u, op).state.Closed? {
      OneMoreTimeout(t, u, Then(u, op), k, op.now);
    }
  }

  lemma ThenClocks(t: Tcb, op: Op)
    requires Wf(t) && op.DoClock?
    ensures Then(t, op) == NotifyClock(t, op.now, op.w)
  {
    hide NotifyClock;
  }

  /** Timeouts in a row, each served by the clock at its own time: each transmits the oldest segment
      again, if the network takes it, or ends the connection; the wait doubles up to its limit; a
      window of one segment is left, and a threshold of half of what is in flight. Each is counted, and a
      connection outlives no more than 15 transmissions of a segment, or 30 before it is open. */
  lemma {:induction false} TimeoutsDouble(t: Tcb, ops: seq<Op>)
    requires Wf(t) && !t.halted && !t.state.Closed? && t.snd.una < t.snd.nxt && InPlace(t)
    requires t.tm.rto <= Limit(t.state) && AllClocks(ops) && AllDue(t, ops)
    ensures var u := After(t, ops); !u.state.Closed? ==> HasTimedOut(t, u, |ops|)
    ensures ops != [] ==>
              var b := After(t, ops[..|ops| - 1]);
              !b.state.Closed? ==> Retransmitted(b, After(t, ops), ops[|ops| - 1].w)
  {
    hide After, Then, HasTimedOut, Retransmitted, RetransmitDue, Wf;
    if ops == [] {
      NoTimeout(t);
    } else {
      var before, last := ops[..|ops| - 1], ops[|ops| - 1];
      AfterLast(t, ops);
      TimeoutsDouble(t, before);
      var b := After(t, before);
      if b.state.Closed? {
        ClosedHearsNothing(b, last);
        ThenSameAcks(b, last);
      } else {
        ThenTimesOut(t, b, |before|, last);
      }
    }
  }

  lemma NoTimeout(t: Tcb)
    requires Wf(t) && !t.halted && t.snd.una < t.snd.nxt && InPlace(t) && t.tm.rto <= Limit(t.state)
    ensures After(t, []) == t && HasTimedOut(t, t, 0)
  {
    hide Then;
  }

  // ---- The round-trip time, measured in any run ----

  /** A packet with a new acknowledgment gives a sample: the time since what it echoes was sent. */
  function SampleOf(t: Tcb, op: Op): seq<nat>
    requires Wf(t)
  {
    if !IsHeard(t, op) || !(t.snd.una < op.p.ack <= t.snd.nxt) then []
    else if op.p.tsecr == 0 || TimeDiff32(op.now, op.p.tsecr) < 0 then []
    else [TimeDiff32(op.now, op.p.tsecr)]
  }

  /** The samples of a run. */
  function Measured(t: Tcb, ops: seq<Op>): seq<nat>
    requires Wf(t)
  {
    if ops == [] then []
    else
      var before := ops[..|ops| - 1];
      Measured(t, before) + SampleOf(After(t, before), ops[|ops| - 1])
  }

  lemma EstimateIgnoresTimer(a: Tm, b: Tm, rtt: nat)
    requires SameEstimate(a, b)
    ensures SameEstimate(Estimate(a, rtt), Estimate(b, rtt))
  {
  }

  lemma ProgressEstimates(t: Tcb, k: nat, now: nat, w: Writer)
    requires Wf(t)
    ensures SameEstimate(t.tm, Progress(t, k, now, w).t.tm)
  {
    hide Retransmit, Keeps, Quiet, Segs, CcOk;
    if t.cc.dupAcks >= 3 && t.snd.una < t.cc.recover {
      RetransmitResizes(t, now, w);
    }
  }

  lemma NewAckEstimates(t: Tcb, p: Packet, now: nat, w: Writer)
    requires Wf(t) && t.snd.una < p.ack <= t.snd.nxt
    ensures SameEstimate(EstimateFrom(t.tm, p, now), NewAck(t, p, now, w).t.tm)
  {
    hide Progress, Freed, TimeDiff32, Estimate, Quiet, Segs, SameEstimate;
    AckBytesEstimates(t, p, now);
    var u := AckBytes(t.(tm := EstimateFrom(t.tm, p, now)), p, now);
    ProgressEstimates(u, p.ack - t.snd.una, now, w);
    EstimateInTurn(EstimateFrom(t.tm, p, now), u.tm, NewAck(t, p, now, w).t.tm);
  }

  lemma AckBytesEstimates(t: Tcb, p: Packet, now: nat)
    requires Wf(t) && t.snd.una < p.ack <= t.snd.nxt
    ensures Wf(t.(tm := EstimateFrom(t.tm, p, now)))
    ensures SameEstimate(EstimateFrom(t.tm, p, now), AckBytes(t.(tm := EstimateFrom(t.tm, p, now)), p, now).tm)
  {
    hide Freed, TimeDiff32, Quiet, Segs;
  }

  lemma EstimateInTurn(a: Tm, b: Tm, c: Tm)
    requires SameEstimate(a, b) && SameEstimate(b, c)
    ensures SameEstimate(a, c)
  {
  }

  lemma RepeatedEstimates(t: Tcb, bare: bool, now: nat, w: Writer)
    requires Wf(t)
    ensures SameEstimate(t.tm, Repeated(t, bare, now, w).t.tm)
  {
    EndIsLast(t.snd.slist, t.snd.una, t.snd.nxt, t.snd.una + t.snd.buf.len);
    hide CountDuplicate, Keeps, Quiet, SndOk, CcOk;
    if bare && t.snd.una < t.snd.nxt {
      CountEstimates(t.(cc := t.cc.(dupAcks := (t.cc.dupAcks + 1) % 256)), now, w);
    }
  }

  lemma CountEstimates(t: Tcb, now: nat, w: Writer)
    requires Wf(t) && t.snd.una < t.snd.nxt
    ensures SameEstimate(t.tm, CountDuplicate(t, now, w).t.tm)
  {
    hide Retransmit, Keeps, Quiet, SndOk, CcOk, InFlight;
    RetransmitResizes(t, now, w);
  }

  lemma AcknowledgeEstimates(t: Tcb, p: Packet, now: nat, w: Writer)
    requires Wf(t)
    ensures SameEstimate(if t.snd.una < p.ack <= t.snd.nxt then EstimateFrom(t.tm, p, now) else t.tm,
                         Acknowledge(t, p, now, w).t.tm)
  {
    hide NewAck, Repeated, EstimateFrom, WindowOf, Segs, CcOk;
    if t.snd.una < p.ack <= t.snd.nxt {
      NewAckEstimates(t, p, now, w);
    } else if p.ack == t.snd.una {
      RepeatedEstimates(t.(snd := t.snd.(wnd := WindowOf(p, t.snd.scale))), p.data == [], now, w);
    }
  }

  lemma EstimateFromIgnores(a: Tm, b: Tm, p: Packet, now: nat)
    requires SameEstimate(a, b)
    ensures SameEstimate(EstimateFrom(a, p, now), EstimateFrom(b, p, now))
  {
  }

  lemma HeardEstimates(t: Tcb, p: Packet, now: nat, w: Writer)
    requires Wf(t) && Hears(t, p, now)
    ensures SameEstimate(if t.snd.una < p.ack <= t.snd.nxt then EstimateFrom(t.tm, p, now) else t.tm,
                         Process(t, p, now, w).1.tm)
  {
    HearingSameAcks(t, p, now);
    HearingKeepsNxt(t, p, now);
    HeardProcess(t, p, now, w);
    var h := Hearing(t, p, now);
    hide Process, Hearing, Acknowledge, EstimateFrom, SndOk, CcOk;
    AcknowledgeEstimates(h, p, now, w);
    EstimateFromIgnores(t.tm, h.tm, p, now);
  }

  lemma ThenEstimates(t: Tcb, m: Tm, op: Op)
    requires Wf(t) && SameEstimate(m, t.tm)
    ensures var s := SampleOf(t, op);
            SameEstimate(if s == [] then m else Estimate(m, s[0]), Then(t, op).tm)
  {
    hide Then, Process, Hears, Estimate, TimeDiff32, Wf;
    if IsHeard(t, op) {
      ThenProcesses(t, op);
      HeardEstimates(t, op.p, op.now, op.w);
      if SampleOf(t, op) != [] {
        EstimateIgnoresTimer(m, t.tm, SampleOf(t, op)[0]);
      }
    } else {
      ThenSameAcks(t, op);
    }
  }

  /** The estimator of an endpoint is that of its samples, whatever else is called and arrives. */
  lemma {:induction false} RunEstimates(t: Tcb, ops: seq<Op>)
    requires Wf(t)
    ensures SameEstimate(Sampled(t.tm, Measured(t, ops)), After(t, ops).tm)
  {
    if ops != [] {
      var before, last := ops[..|ops| - 1], ops[|ops| - 1];
      RunEstimates(t, before);
      AfterLast(t, ops);
      hide After, Then, SampleOf, Estimate, SameEstimate, Wf;
      var a, s := Measured(t, before), SampleOf(After(t, before), last);
      ThenEstimates(After(t, before), Sampled(t.tm, a), last);
      SampleIsOne(After(t, before), last);
      assert s == [] ==> a + s == a;
      assert s != [] ==> (a + s)[..|a + s| - 1] == a;
    } else {
      hide Then;
    }
  }

  lemma SampleIsOne(t: Tcb, op: Op)
    requires Wf(t)
    ensures |SampleOf(t, op)| <= 1
  {
    hide Hears;
  }

  /** Section 2 of RFC 6298, over any run: the smoothed round-trip time lies between the least and
      the greatest that its packets have shown, and the timeout within its bounds. */
  lemma SmoothedInEveryRun(t: Tcb, ops: seq<Op>, lo: nat, hi: nat)
    requires Wf(t) && t.tm.srtt == 0
    requires forall k :: 0 <= k < |Measured(t, ops)| ==> lo <= Measured(t, ops)[k] <= hi
    ensures var u := After(t, ops);
            && (Measured(t, ops) != [] ==> lo <= u.tm.srtt <= hi)
            && (Measured(t, ops) == [] ==> u.tm.srtt == 0)
            && MIN_RTO <= u.tm.rto <= MAX_RTO
  {
    RunEstimates(t, ops);
    var u := After(t, ops);
    hide After, Measured, Estimate;
    if Measured(t, ops) != [] {
      SmoothedLiesWithinSamples(t.tm, Measured(t, ops), lo, hi);
    }
  }

  // ---- The weight of a sample ----

  function Distance(a: nat, b: nat): nat { if a < b then b - a else a - b }

  /** Section 2 of RFC 6298, in whole milliseconds: the first sample becomes the estimate, and half of
      it the variation; each later one counts an eighth, and its error a quarter. */
  lemma SampleWeighs(t: Tcb, op: Op)
    requires Wf(t) && SampleOf(t, op) != []
    ensures var (rtt, a, b) := (SampleOf(t, op)[0], t.tm, Then(t, op).tm);
            if a.srtt == 0 then b.srtt == rtt && 2 * b.rttvar <= rtt <= 2 * b.rttvar + 1
            else
              && 8 * b.srtt <= 7 * a.srtt + rtt <= 8 * b.srtt + 7
              && 4 * b.rttvar <= 3 * a.rttvar + Distance(rtt, a.srtt) <= 4 * b.rttvar + 3
  {
    hide Then, SampleOf, Wf;
    SameAtFirst(t.tm);
    ThenEstimates(t, t.tm, op);
  }

  lemma SameAtFirst(m: Tm)
    ensures SameEstimate(m, m)
  {
  }

  function Power(b: nat, k: nat): nat { if k == 0 then 1 else b * Power(b, k - 1) }

  predicate AllAre(rtts: seq<nat>, rtt: nat) { forall k :: 0 <= k < |rtts| ==> rtts[k] == rtt }

  lemma OneSampleCloser(m: Tm, rtt: nat)
    requires m.srtt > 0
    ensures var (d, e) := (Distance(m.srtt, rtt), Distance(Estimate(m, rtt).srtt, rtt));
            7 * d <= 8 * e + 7 && 8 * e <= 7 * d + 7
  {
  }

  lemma StepCloser(p: nat, q: nat, a: nat, d: nat, e: nat)
    requires q * a <= p * d + 7 * p && p * d <= q * a + 7 * p && 7 * d <= 8 * e + 7 && 8 * e <= 7 * d + 7
    ensures (7 * q) * a <= (8 * p) * e + 7 * (8 * p)
    ensures (8 * p) * e <= (7 * q) * a + 7 * (8 * p)
  {
    assert (7 * q) * a == 7 * (q * a);
    assert (8 * p) * e == p * (8 * e);
    assert p * (7 * d + 7) == 7 * (p * d) + 7 * p;
    assert p * (8 * e + 7) == p * (8 * e) + 7 * p;
    assert p * (7 * d) == 7 * (p * d);
    Timeses(p, 8 * e, 7 * d + 7);
    Timeses(p, 7 * d, 8 * e + 7);
  }

  /** `e` is what is left of `d` when `k` times an eighth goes, up to 7 in all. */
  predicate Shrunk(d: nat, e: nat, k: nat) {
    && Power(7, k) * d <= Power(8, k) * e + 7 * Power(8, k)
    && Power(8, k) * e <= Power(7, k) * d + 7 * Power(8, k)
  }

  /** A steady round-trip time above 7 ms is learned: with each sample of it the distance of the
      smoothed time shrinks by an eighth, no more and no less, up to 7 ms of rounding in all. */
  lemma {:induction false} SteadySamplesConverge(m: Tm, rtts: seq<nat>, rtt: nat)
    requires m.srtt > 0 && rtt > 7 && AllAre(rtts, rtt)
    ensures var e := Sampled(m, rtts);
            e.srtt > 0 && Shrunk(Distance(m.srtt, rtt), Distance(e.srtt, rtt), |rtts|)
  {
    if rtts != [] {
      var before := rtts[..|rtts| - 1];
      SteadySamplesConverge(m, before, rtt);
      var e := Sampled(m, before);
      OneSampleCloser(e, rtt);
      StaysPositive(e.srtt, rtt);
      hide Estimate, Distance;
      StepCloser(Power(8, |before|), Power(7, |before|), Distance(m.srtt, rtt), Distance(e.srtt, rtt),
                 Distance(Sampled(m, rtts).srtt, rtt));
    }
  }

  lemma StaysPositive(a: nat, rtt: nat)
    requires a > 0 && rtt > 7
    ensures (7 * a + rtt) / 8 > 0
  {
  }

  /** So it is over any run whose packets show that time. */
  lemma RunConverges(t: Tcb, ops: seq<Op>, rtt: nat)
    requires Wf(t) && t.tm.srtt > 0 && rtt > 7 && AllAre(Measured(t, ops), rtt)
    ensures Shrunk(Distance(t.tm.srtt, rtt), Distance(After(t, ops).tm.srtt, rtt), |Measured(t, ops)|)
  {
    hide After, Then, Measured, Estimate, AllAre, Shrunk, Distance, Wf;
    RunEstimates(t, ops);
    SteadySamplesConverge(t.tm, Measured(t, ops), rtt);
  }
}
