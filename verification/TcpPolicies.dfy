/** When an endpoint tells its peer something: how the receive window opens again, and which
    packets are acknowledged. */
module TcpPolicies {
  import opened Numbers
  import opened FifoBuffers
  import opened TcpSegments
  import opened TcpTypes
  import opened TcpSender
  import opened TcpReceiver

  // ---- Window updates ----

  /** The receiver opens its window by steps that are worth a packet, and keeps back less than
      one: the window never stays shut while half the buffer or a segment is free. */
  lemma WindowMovesInSteps(r: Rcv, n: nat, mss: nat)
    requires r.buf.Valid() && |r.buf.slots| < U32 && 2 <= |r.buf.slots| && 1 <= mss
    requires n <= r.buf.len && r.wnd <= r.buf.Free()
    ensures var (q, step) := (Taken(r, n, mss), Min(|r.buf.slots| / 2, mss));
            && (q.wnd == r.wnd || q.wnd >= r.wnd + step)
            && r.wnd <= q.wnd <= q.buf.Free() < q.wnd + step
  {
  }

  // ---- Does the network take a packet ----

  /** The network takes the next `n` bytes, cut to the next smaller packet size as often as it
      calls them too large. `at` numbers the next write. */
  predicate Takes(c: Cc, n: nat, at: nat, w: Writer)
    requires CcOk(c)
    decreases LAST_LEVEL - c.level
  {
    match w(at)
    case Success => true
    case Fail => false
    case TooLarge =>
      var (lower, d) := LowerMss(c, n);
      lower && Takes(d, d.mss, at + 1, w)
  }

  /** A packet with payload is on the network, or was refused without a trace. */
  predicate Written(t: Tcb, u: Tcb, seqno: nat, res: WriteResult) {
    && u.io.writes == t.io.writes + 1
    && if res.Success? then |u.io.out| == |t.io.out| + 1 && u.io.out[|t.io.out|].seqno == seqno
       else u.io.out == t.io.out && u.tm.tAck == t.tm.tAck
  }

  lemma SendOnceWrites(t: Tcb, s: SSegment, n: nat, now: nat, w: Writer)
    requires t.snd.buf.Valid() && CcOk(t.cc) && n > 0
    requires t.snd.una <= s.seqno && s.seqno - t.snd.una + n <= t.snd.buf.len
    ensures var (res, u) := SendOnce(t, s, n, now, w);
            res == w(t.io.writes) && Written(t, u, s.seqno, res)
  {
    hide Acknowledging, Quiet, Tries, SameClock;
  }

  /** A segment is sent exactly when the network takes it, in one packet; otherwise nothing is
      left of the attempts. */
  lemma {:induction false} SendLoopTakes(t: Tcb, s: SSegment, n: nat, now: nat, w: Writer)
    requires t.snd.buf.Valid() && CcOk(t.cc) && 0 < n <= s.len
    requires t.snd.una <= s.seqno && s.seqno - t.snd.una + n <= t.snd.buf.len
    ensures var r := SendLoop(t, s, n, now, w);
            && t.io.writes < r.t.io.writes
            && (r.Sent? <==> Takes(t.cc, n, t.io.writes, w))
            && (r.Sent? ==> |r.t.io.out| == |t.io.out| + 1 && r.t.io.out[|t.io.out|].seqno == s.seqno)
            && (r.Refused? ==> r.t.io.out == t.io.out && r.t.tm.tAck == t.tm.tAck)
    decreases LAST_LEVEL - t.cc.level
  {
    hide SendOnce, Quiet, Tries;
    SendOnceWrites(t, s, n, now, w);
    var (res, t1) := SendOnce(t, s, n, now, w);
    if res.TooLarge? {
      TriesAtAll(t, t1);
      var (lower, t2) := Fallback(t1, n);
      TriesAtAll(t1, t2);
      if lower {
        SendLoopTakes(t2, s, t2.cc.mss, now, w);
      }
    }
  }

  lemma TriesAtAll(t: Tcb, u: Tcb)
    requires Tries(t, u)
    ensures CcOk(u.cc) && u.snd == t.snd
  {
  }

  // ---- Replies ----

  /** A packet, which acknowledges whatever else it carries, is on the network; or an
      acknowledgment is due. */
  predicate Replied(t: Tcb, u: Tcb) { |t.io.out| < |u.io.out| || u.tm.tAck != 0 }

  /** Nagle's rule holds back what could be sent. */
  predicate HeldBack(t: Tcb)
    requires SndOk(t.snd)
  {
    Available(t) > 0 && NagleHolds(t, Available(t))
  }

  /** Data could be sent, and the network does not take them. */
  predicate DataRefused(t: Tcb, w: Writer)
    requires Wf(t)
  {
    var n := Available(t);
    n > 0 && !NagleHolds(t, n) && !Takes(t.cc, NextLength(t, n), t.io.writes, w)
  }

  /** There is no data to send, and the network does not take the bare acknowledgment. */
  predicate AckRefused(t: Tcb, flags: SendFlags, w: Writer)
    requires SndOk(t.snd)
  {
    Available(t) == 0 && (flags.ImmediateAck? || t.tm.tAck != 0) && !w(t.io.writes).Success?
  }

  /** The bytes of the first unsent segment, at most `n`. */
  function NextLength(t: Tcb, n: nat): (k: nat)
    requires Wf(t) && 0 < n <= Unsent(t.snd)
    ensures 0 < k <= n
  {
    UnsentExists(t.snd.slist, t.snd.una, t.snd.nxt, t.snd.una + t.snd.buf.len);
    Min(t.snd.slist[FirstUnsent(t.snd.slist)].len, n)
  }

  lemma TransmitTakes(t: Tcb, now: nat, w: Writer)
    requires Wf(t) && Transmittable(t.snd, FirstUnsent(t.snd.slist))
    ensures var (ok, u) := Transmit(t, FirstUnsent(t.snd.slist), now, w);
            var s := t.snd.slist[FirstUnsent(t.snd.slist)];
            && (ok <==> Takes(t.cc, Min(s.len, t.cc.mss), t.io.writes, w))
            && if ok then |t.io.out| < |u.io.out| else u.io.out == t.io.out && u.tm.tAck == t.tm.tAck
  {
    var i := FirstUnsent(t.snd.slist);
    var s := t.snd.slist[i];
    UnsentFits(t.snd.slist, t.snd.una, t.snd.nxt, t.snd.una + t.snd.buf.len, i);
    EndIsLast(t.snd.slist, t.snd.una, t.snd.nxt, t.snd.una + t.snd.buf.len);
    SendLoopTakes(t, s, Min(s.len, t.cc.mss), now, w);
    hide SendLoop, Segs, Sends, Tries, Takes;
  }

  lemma CutIsNextLength(t: Tcb, n: nat)
    requires Wf(t) && 0 < n <= Unsent(t.snd) && n <= t.cc.mss
    ensures var u := CutNext(t, n);
            Min(u.snd.slist[FirstUnsent(u.snd.slist)].len, u.cc.mss) == NextLength(t, n)
  {
    CutNextOk(t.snd, n);
    hide Segs, Sends;
  }

  lemma SendNextTakes(t: Tcb, n: nat, now: nat, w: Writer)
    requires Wf(t) && 0 < n <= Unsent(t.snd) && n <= t.cc.mss
    ensures var (ok, u) := SendNext(t, n, now, w);
            && (ok <==> Takes(t.cc, NextLength(t, n), t.io.writes, w))
            && if ok then |t.io.out| < |u.io.out| else u.io.out == t.io.out && u.tm.tAck == t.tm.tAck
  {
    hide Transmit, Sends, Takes, NextLength;
    CutIsNextLength(t, n);
    TransmitTakes(CutNext(t, n), now, w);
  }

  lemma FinishReplies(t: Tcb, flags: SendFlags, now: nat, w: Writer)
    requires Wf(t) && flags != None && now > 0 && Available(t) == 0
    ensures Replied(t, FinishSend(t, flags, now, w)) <==> !AckRefused(t, flags, w)
  {
    hide Acknowledging, Quiet, SameClock, Available, Segs, NewPacket;
    assert t.snd.buf.Valid();
    hide SndOk, Wf;
  }

  lemma TurnReplies(t: Tcb, flags: SendFlags, now: nat, w: Writer)
    requires Wf(t) && flags != None && now > 0
    ensures var (done, u) := Turn(t, flags, now, w);
            && (Replied(t, u) <==>
                  !AckRefused(t, flags, w) && !(t.tm.tAck == 0 && (HeldBack(t) || DataRefused(t, w))))
            && (!done ==> |t.io.out| < |u.io.out|)
  {
    var n := Available(t);
    hide Available, FinishSend, SendNext, CcOk, Sends, Takes, NextLength;
    if n == 0 {
      FinishReplies(t, flags, now, w);
    } else if !NagleHolds(t, n) {
      SendNextTakes(t, n, now, w);
    }
  }

  lemma LoopReplies(t: Tcb, flags: SendFlags, now: nat, w: Writer)
    requires Wf(t) && flags != None && now > 0
    ensures Replied(t, AttemptLoop(t, flags, now, w)) <==>
            !AckRefused(t, flags, w) && !(t.tm.tAck == 0 && (HeldBack(t) || DataRefused(t, w)))
  {
    TurnReplies(t, flags, now, w);
    var (done, u) := Turn(t, flags, now, w);
    hide Turn, HeldBack, DataRefused, AckRefused;
    if !done {
      assert Quiet(u, AttemptLoop(u, None, now, w));
    }
  }

  /** What asks for an acknowledgment gets one, at once or when the delay has passed, unless:
      the network refuses the bare acknowledgment; or none is due yet, and Nagle's rule holds
      back data, or the network refuses data. In all three cases the request is forgotten. */
  lemma RepliesExactly(t: Tcb, flags: SendFlags, now: nat, w: Writer)
    requires Wf(t) && flags != None && now > 0
    ensures var u := Restarted(t, now);
            Replied(t, AttemptSend(t, flags, now, w)) <==>
            !AckRefused(u, flags, w) && !(t.tm.tAck == 0 && (HeldBack(u) || DataRefused(u, w)))
  {
    hide AttemptLoop, HeldBack, DataRefused, AckRefused;
    LoopReplies(Restarted(t, now), flags, now, w);
  }
}
