/** Concrete runs of one endpoint, from its creation: duplicate acknowledgments whose eight-bit count
    wraps, and a connect message that an MTU cuts. */
module TcpWrapExamples {
  import opened Numbers
  import opened FifoBuffers
  import opened TcpSegments
  import opened TcpTypes
  import opened TcpSender
  import opened TcpReceiver
  import opened TcpEndpoint
  import opened TcpDelivery
  import opened TcpSystem
  import opened TcpPolicies
  import opened TcpProgress
  import opened TcpRuns
  import opened TcpDuplicates
  import opened TcpRecovery
  import opened TcpTimers
  import opened TcpExamples

  // ---- Duplicates while all is in flight ----

  /** A bare packet of the peer that acknowledges nothing yet. */
  const DUPLICATE: Packet := Packet(0, 4, 0, 0, 100, 0, 0, [])

  /** All of `end` bytes are in flight, and `k` duplicates in a row have been counted. */
  ghost predicate Standing(t: Tcb, k: nat, end: nat, mark: nat) {
    && Wf(t) && t.conv == 0 && !t.halted && t.state.Established? && !t.writeEnable && !t.nagling
    && t.rcv.nxt == 4 && |t.snd.buf.slots| == 8
    && t.snd.una == 0 && t.snd.nxt == end == t.snd.buf.len && t.snd.wnd == 100 && t.snd.scale == 0
    && t.cc.mss == 65419 && t.cc.dupAcks == k % 256 && (k >= 3 ==> t.cc.recover == mark)
    && t.tm.lastsend == 1 && t.tm.rto == DEF_RTO
    && t.snd.slist != [] && t.snd.slist[0].seqno == 0 && t.snd.slist[0].xmit <= 1 + (k + 253) / 256
  }

  lemma FlyingStands(t: Tcb)
    requires Flying(t) && t.cc.dupAcks == 0
    ensures Standing(t, 0, 5, 5)
  {
    hide Segs, CcOk;
  }

  lemma MarkedFront(s: Snd, n: nat)
    requires s.slist != [] && 0 < n <= s.slist[0].len && s.slist[0].xmit > 0
    ensures var u := Mark(s, 0, n);
            && u.slist != [] && u.slist[0].seqno == s.slist[0].seqno && u.slist[0].xmit == s.slist[0].xmit + 1
            && u == s.(slist := u.slist)
  {
  }

  /** The oldest segment is transmitted again. */
  lemma ResendsFront(t: Tcb, now: nat)
    requires Wf(t) && t.snd.una < t.snd.nxt && FrontGoes(t) && t.snd.slist[0].xmit < 15
    ensures var r := Retransmit(t, now, TAKES_ALL);
            && r == Fine(WithSent(t, r.t.snd, r.t.io, now)) && r.t.snd == t.snd.(slist := r.t.snd.slist)
            && r.t.snd.slist != [] && r.t.snd.slist[0].seqno == t.snd.slist[0].seqno
            && r.t.snd.slist[0].xmit == t.snd.slist[0].xmit + 1
  {
    FrontInFlight(t.snd.slist, t.snd.una, t.snd.nxt, t.snd.una + t.snd.buf.len);
    TransmitExactly(t, 0, now, TAKES_ALL);
    MarkedFront(t.snd, Min(t.snd.slist[0].len, t.cc.mss));
    hide Transmit, Mark, Segs, CcOk, Quiet;
  }

  /** The mark after one more duplicate. */
  function NextMark(k: nat, end: nat, mark: nat): nat { if (k + 1) % 256 == 3 then end else mark }

  lemma CountStands(t: Tcb, k: nat, end: nat, mark: nat)
    requires Standing(t, k, end, mark) && end > 0 && k < 1000
    ensures Wf(t.(cc := t.cc.(dupAcks := (k + 1) % 256)))
    ensures var r := CountDuplicate(t.(cc := t.cc.(dupAcks := (k + 1) % 256)), 1, TAKES_ALL);
            r.Fine? && Standing(r.t, k + 1, end, NextMark(k, end, mark))
  {
    var x := t.(cc := t.cc.(dupAcks := (k + 1) % 256));
    if (k + 1) % 256 == 3 {
      ThirdStands(t, k, end, mark);
    }
    hide Retransmit, EnterRecovery, Segs, Quiet, InFlight;
  }

  lemma StandingGoes(t: Tcb, k: nat, end: nat, mark: nat)
    requires Standing(t, k, end, mark) && k < 1000 && end > 0
    ensures var x := t.(cc := t.cc.(dupAcks := 3));
            && Wf(x) && FrontGoes(x) && t.snd.slist[0].xmit < 15
            && t.snd.nxt == end && t.cc.mss == 65419 && t.tm.lastsend == 1 && t.tm.rto == DEF_RTO && t.snd.una == 0
  {
    hide Segs;
  }

  /** Another transmission of the oldest segment, and a new mark. */
  lemma StandsAgain(t: Tcb, u: Tcb, k: nat, end: nat, mark: nat)
    requires Standing(t, k, end, mark) && Wf(u) && (k + 1) % 256 == 3
    requires u == t.(snd := u.snd, io := u.io, outgoing := u.outgoing, tm := u.tm, cc := u.cc)
    requires u.snd == t.snd.(slist := u.snd.slist) && u.tm.lastsend == 1 && u.tm.rto == t.tm.rto
    requires u.snd.slist != [] && u.snd.slist[0].seqno == t.snd.slist[0].seqno
    requires u.snd.slist[0].xmit == t.snd.slist[0].xmit + 1
    requires u.cc.mss == t.cc.mss && u.cc.dupAcks == 3 && u.cc.recover == end
    ensures Standing(u, k + 1, end, end)
  {
    hide Wf;
  }

  lemma ThirdStands(t: Tcb, k: nat, end: nat, mark: nat)
    requires Standing(t, k, end, mark) && end > 0 && k < 1000 && (k + 1) % 256 == 3
    ensures Wf(t.(cc := t.cc.(dupAcks := 3)))
    ensures var r := Retransmit(t.(cc := t.cc.(dupAcks := 3)), 1, TAKES_ALL);
            r.Fine? && Wf(r.t) && Standing(EnterRecovery(r.t), k + 1, end, end)
  {
    hide Retransmit, EnterRecovery, Wf, Standing, FrontGoes, TAKES_ALL;
    StandingGoes(t, k, end, mark);
    var x := t.(cc := t.cc.(dupAcks := 3));
    ResendsFront(x, 1);
    var u := Retransmit(x, 1, TAKES_ALL).t;
    Enters(u);
    StandsAgain(t, EnterRecovery(u), k, end, mark);
  }

  lemma Enters(t: Tcb)
    requires Wf(t)
    ensures var u := EnterRecovery(t);
            && Wf(u) && u == t.(cc := u.cc)
            && u.cc.mss == t.cc.mss && u.cc.dupAcks == t.cc.dupAcks && u.cc.recover == t.snd.nxt
  {
    hide SndOk, InFlight;
  }

  lemma ReceivedStands(t: Tcb, k: nat, end: nat, mark: nat)
    requires Standing(t, k, end, mark)
    ensures var u := Stamp(Received(t, 1), DUPLICATE);
            var x := u.(snd := u.snd.(wnd := WindowOf(DUPLICATE, u.snd.scale)));
            && Standing(x, k, end, mark) && WithCount(t, DUPLICATE, 1) == x.(cc := x.cc.(dupAcks := (k + 1) % 256))
  {
    assert Pow2(0) == 1 && WindowOf(DUPLICATE, 0) == 100;
    OneMoreTurn(k);
    hide Segs, CcOk;
  }

  lemma ReadyStands(t: Tcb, k: nat, end: nat, mark: nat)
    requires Standing(t, k, end, mark) && end > 0 && k < 1000
    ensures var r := Ready(t, DUPLICATE, 1, TAKES_ALL);
            r.Fine? && Standing(r.t, k + 1, end, NextMark(k, end, mark))
  {
    CountedIs(t, DUPLICATE, 1, TAKES_ALL);
    ReceivedStands(t, k, end, mark);
    var u := Stamp(Received(t, 1), DUPLICATE);
    var x := u.(snd := u.snd.(wnd := WindowOf(DUPLICATE, u.snd.scale)));
    CountStands(x, k, end, mark);
    var r := Counted(t, DUPLICATE, 1, TAKES_ALL);
    hide Counted, CountDuplicate, WithCount, SndOk, CcOk;
    assert AfterAck(r.t, false) == r.t;
  }

  /** Nothing is left to send. */
  lemma StandsStill(t: Tcb, k: nat, end: nat, mark: nat)
    requires Standing(t, k, end, mark)
    ensures AttemptSend(t, None, 1, TAKES_ALL) == t
  {
    AttemptSendsNothing(t, None, 1, TAKES_ALL);
    assert Restarted(t, 1) == t;
    hide AttemptSend, Segs, CcOk;
  }

  lemma DuplicateStands(t: Tcb, k: nat, end: nat, mark: nat)
    requires Standing(t, k, end, mark) && end > 0 && k < 1000
    ensures Standing(Then(t, Arrives(DUPLICATE, 1, TAKES_ALL)), k + 1, end, NextMark(k, end, mark))
  {
    hide Ready, AttemptSend, Then, SndOk, CcOk, NextMark;
    ReadyStands(t, k, end, mark);
    ThenSends(t, Arrives(DUPLICATE, 1, TAKES_ALL));
    var r := Ready(t, DUPLICATE, 1, TAKES_ALL);
    StandsStill(r.t, k + 1, end, NextMark(k, end, mark));
  }

  function Duplicates(n: nat): seq<Op> {
    if n == 0 then [] else Duplicates(n - 1) + [Arrives(DUPLICATE, 1, TAKES_ALL)]
  }

  const BYTE_SENT: seq<Op> := Opening(false) + [DoSend(BYTE, 1, TAKES_ALL)]

  lemma ByteStands() returns (t: Tcb)
    ensures Standing(t, 0, 5, 5) && Ends(BYTE_SENT, t)
  {
    t := RunOpens(false);
    hide Ends, Then, Opening, Send;
    ByteFlies(t);
    ThenIs(t, 1, TAKES_ALL, BYTE);
    RunGoesOn(Opening(false), t, DoSend(BYTE, 1, TAKES_ALL));
    t := Then(t, DoSend(BYTE, 1, TAKES_ALL));
    FlyingStands(t);
  }

  /** After up to 258 duplicates recovery is still to end at 5. */
  lemma {:induction false} RunStands(n: nat) returns (t: Tcb)
    requires n < 259
    ensures Standing(t, n, 5, 5) && Ends(BYTE_SENT + Duplicates(n), t)
  {
    hide Ends, Then, Standing, BYTE_SENT, DUPLICATE;
    if n == 0 {
      t := ByteStands();
      assert BYTE_SENT + [] == BYTE_SENT;
    } else {
      t := RunStands(n - 1);
      StandingIsWf(t, n - 1, 5, 5);
      var op := Arrives(DUPLICATE, 1, TAKES_ALL);
      RunGoesOn(BYTE_SENT + Duplicates(n - 1), t, op);
      DuplicateStands(t, n - 1, 5, 5);
      assert BYTE_SENT + Duplicates(n - 1) + [op] == BYTE_SENT + Duplicates(n);
      t := Then(t, op);
    }
  }

  lemma StandingIsWf(t: Tcb, k: nat, end: nat, mark: nat)
    requires Standing(t, k, end, mark)
    ensures Wf(t)
  {
  }

  // ---- A partial acknowledgment after the wrap ----

  /** The peer has the connect message, but not the byte behind it. */
  const PARTIAL: Packet := Packet(0, 4, 4, 0, 100, 0, 0, [])

  lemma RestStaysOpen(t: Tcb, p: Packet, connect: bool, now: nat, w: Writer)
    requires Wf(t) && t.state.Established?
    ensures Rest(t, p, connect, now, w).1.state.Established?
  {
    var u := AfterAck(t, connect);
    assert u.state.Established?;
    hide Payload, AfterAck, SndOk, CcOk, Quiet, Keeps;
    PayloadStaysOpen(u, p, now, w);
  }

  lemma PayloadStaysOpen(t: Tcb, p: Packet, now: nat, w: Writer)
    requires Wf(t) && t.state.Established?
    ensures Payload(t, p, now, w).1.state.Established?
  {
    hide AttemptSend, ArriveAt, SndOk, CcOk, Quiet, ReplyFlags, Keeps, SameBuffer, SameRecovery, Steady, Roomy;
  }

  lemma NewAckStaysOpen(t: Tcb, p: Packet, now: nat, w: Writer)
    requires Wf(t) && t.snd.una < p.ack <= t.snd.nxt && t.cc.dupAcks < 3
    ensures var r := Acknowledge(t, p, now, w); r.Fine? && r.t.state == t.state
  {
    hide Freed, TimeDiff32, Segs, Quiet;
  }

  lemma PartialHeard(t: Tcb, k: nat, mark: nat)
    requires Standing(t, k, 5, mark) && k % 256 < 3
    ensures Hears(t, PARTIAL, 1) && !Process(t, PARTIAL, 1, TAKES_ALL).1.state.Closed?
  {
    ProcessIs(t, PARTIAL, 1, TAKES_ALL);
    var h := Hearing(t, PARTIAL, 1);
    assert h.state.Established? && h.snd == t.snd && h.cc == t.cc;
    hide Process, Acknowledge, Rest, Hearing, Control, SndOk, CcOk;
    NewAckStaysOpen(h, PARTIAL, 1, TAKES_ALL);
    var connect := Control(Received(t, 1), PARTIAL).connect;
    RestStaysOpen(Acknowledge(h, PARTIAL, 1, TAKES_ALL).t, PARTIAL, connect, 1, TAKES_ALL);
  }

  /** A run of 257 duplicates, recovery under way for 5: an acknowledgment of 4 ends the count. */
  lemma PartialAcknowledgmentEndsCount() returns (t: Tcb)
    ensures Wf(t) && t.cc.dupAcks == 1 && t.cc.recover == 5 && t.snd.una == 0
    ensures var u := Process(t, PARTIAL, 1, TAKES_ALL).1;
            !u.state.Closed? && u.snd.una == 4 && u.cc.recover == 5 && u.cc.dupAcks == 0
    ensures Ends(BYTE_SENT + Duplicates(257), t)
  {
    hide Ends, Process, Hears, BYTE_SENT, Duplicates, SndOk, CcOk;
    t := RunStands(257);
    PartialHeard(t, 257, 5);
    HeardFollows(t, Episode(257, 5), PARTIAL, 1, TAKES_ALL);
    HeardMoves(t, PARTIAL, 1, TAKES_ALL);
  }

  // ---- The 259th duplicate ----

  lemma QueuedStands(t: Tcb)
    requires Standing(t, 258, 5, 5)
    ensures var u := Queued(t, BYTE);
            && u == t.(snd := u.snd) && u.snd.nxt == 5 && u.snd.buf.len == 6 && u.snd.una == 0 && u.snd.wnd == 100
            && SendsAtOnce(u) && Restarted(u, 1) == u && |u.snd.buf.slots| == 8 && u.snd.scale == 0
            && u.snd.slist != [] && u.snd.slist[0] == t.snd.slist[0] && t.snd.slist[0].xmit > 0
  {
    FrontInFlight(t.snd.slist, t.snd.una, t.snd.nxt, t.snd.una + t.snd.buf.len);
    hide Quiet, Segs, CcOk;
  }

  lemma ByteFollows(t: Tcb)
    requires Standing(t, 258, 5, 5)
    ensures Standing(Send(t, BYTE, 1, TAKES_ALL).1, 258, 6, 5)
  {
    QueuedStands(t);
    hide Available, NextLength, Queued, AttemptSend, SendsAtOnce, Quiet, SndOk, CcOk;
    AttemptSendsAll(Queued(t, BYTE), None, 1, TAKES_ALL);
  }

  lemma StandingIsTaken(t: Tcb, k: nat, end: nat, mark: nat)
    requires Standing(t, k, end, mark) && k < 1000 && end > 0
    ensures FrontIsTaken(t, TAKES_ALL)
  {
  }

  lemma StandingHears(t: Tcb, end: nat, mark: nat)
    requires Standing(t, 258, end, mark) && end > 0
    ensures !t.halted && !t.state.Closed? && t.snd.una < t.snd.nxt && Duplicate(t, DUPLICATE)
    ensures t.cc.dupAcks == 2
  {
    hide Wf;
  }

  lemma StandingMark(t: Tcb, end: nat, mark: nat)
    requires Standing(t, 259, end, mark)
    ensures t.cc.dupAcks == 3 && t.cc.recover == mark
  {
    hide Wf;
  }

  lemma LaterThird(t: Tcb, end: nat, mark: nat)
    requires Standing(t, 258, end, mark) && end > 0
    ensures var u := Then(t, Arrives(DUPLICATE, 1, TAKES_ALL));
            u.cc.dupAcks == 3 && u.cc.recover == end && Resent(t, u)
  {
    var op := Arrives(DUPLICATE, 1, TAKES_ALL);
    hide Then, FrontIsTaken, Resent, Standing, Duplicate, DUPLICATE, TAKES_ALL, Wf;
    StandingIsWf(t, 258, end, mark);
    StandingHears(t, end, mark);
    DuplicateStands(t, 258, end, mark);
    StandingMark(Then(t, op), end, NextMark(258, end, mark));
    StandingIsTaken(t, 258, end, mark);
    ThirdResends(t, op);
  }

  /** A run of 258 duplicates, recovery under way for 5, and another byte sent: the next duplicate
      retransmits once more, and recovery is to end at 6. */
  lemma LaterDuplicateBeginsAgain() returns (t: Tcb)
    ensures Wf(t) && t.cc.recover == 5
    ensures var u := Process(t, DUPLICATE, 1, TAKES_ALL).1;
            u.cc.dupAcks == 3 && u.cc.recover == 6 && Resent(t, u)
    ensures Ends(BYTE_SENT + Duplicates(258) + [DoSend(BYTE, 1, TAKES_ALL)], t)
  {
    hide Ends, Then, Process, Send, BYTE_SENT, Duplicates, Resent, SndOk, CcOk;
    t := RunStands(258);
    ByteFollows(t);
    ThenIs(t, 1, TAKES_ALL, BYTE);
    RunGoesOn(BYTE_SENT + Duplicates(258), t, DoSend(BYTE, 1, TAKES_ALL));
    t := Then(t, DoSend(BYTE, 1, TAKES_ALL));
    LaterThird(t, 6, 5);
    ThenProcesses(t, Arrives(DUPLICATE, 1, TAKES_ALL));
  }

  // ---- A connect message is cut ----

  /** The connect message waits for its acknowledgment, and segments have two bytes. */
  ghost predicate Narrow(t: Tcb) {
    && Wf(t) && !t.halted && t.state.Established? && InFront(t.snd)
    && t.snd.una == 0 && t.snd.nxt == t.snd.buf.len == 4 && t.snd.wnd == 100 && t.cc.mss == 2
    && t.tm.rtoBase == 1 && t.tm.rto == DEF_RTO && t.tm.tAck == 0
  }

  lemma AdvisedIsNarrow(t: Tcb)
    requires Open(t, true)
    ensures Narrow(Then(t, DoMtu(PACKET_OVERHEAD + 2)))
  {
    hide Segs, Quiet;
  }

  /** A control packet of two bytes has gone out. */
  predicate CutOut(t: Tcb, u: Tcb) {
    && |u.io.out| == |t.io.out| + 1
    && var p := u.io.out[|t.io.out|];
    && HasCtl(p.flags) && p.seqno == 0 && |p.data| == 2
  }

  lemma NarrowTransmits(t: Tcb)
    requires Narrow(t)
    ensures Transmittable(t.snd, 0)
    ensures var (ok, u) := Transmit(t, 0, 5000, TAKES_ALL);
            ok && CutOut(t, u) && u.snd.wnd == 100 && u.tm.tAck == 0 && u.state.Established?
  {
    FrontIsOld(t);
    SegmentFits(t.snd, 0);
    TransmitExactly(t, 0, 5000, TAKES_ALL);
    SendLoopOut(t, t.snd.slist[0], 2, 5000, TAKES_ALL);
    SendLoopTakes(t, t.snd.slist[0], 2, 5000, TAKES_ALL);
    hide SendLoop, Segs, Tries, Sends, Quiet, CcOk, Mark;
  }

  lemma NarrowRetransmits(t: Tcb)
    requires Narrow(t)
    ensures var r := RetransmitOnTimeout(t, 5000, TAKES_ALL);
            r.Fine? && CutOut(t, r.t) && r.t.snd.wnd == 100 && r.t.tm.tAck == 0
  {
    NarrowTransmits(t);
    assert RetransmitDue(t, 5000);
    hide Transmit, RetransmitDue, CutOut, SndOk, CcOk, Quiet;
  }

  /** A run that opens a connection and then advises an MTU with two bytes of payload: when the
      connect message is transmitted again it is cut to two bytes, without the window scale. */
  lemma ConnectMessageIsCut() returns (t: Tcb)
    ensures Wf(t) && t.state.Established? && CutOut(t, NotifyClock(t, 5000, TAKES_ALL))
    ensures Ends(Opening(true) + [DoMtu(PACKET_OVERHEAD + 2)], t)
  {
    hide Ends, Then, NotifyClock, Opening, CutOut, SndOk, CcOk;
    t := RunOpens(true);
    AdvisedIsNarrow(t);
    RunGoesOn(Opening(true), t, DoMtu(PACKET_OVERHEAD + 2));
    t := Then(t, DoMtu(PACKET_OVERHEAD + 2));
    NarrowCuts(t);
  }

  lemma NarrowCuts(t: Tcb)
    requires Narrow(t)
    ensures CutOut(t, NotifyClock(t, 5000, TAKES_ALL))
  {
    NarrowRetransmits(t);
    hide RetransmitOnTimeout, CutOut, SndOk, CcOk, Quiet;
  }
}
