/** Which packets are answered, and when: at once, after a delay, or not at all. */
module TcpReplies {
  import opened Numbers
  import opened FifoBuffers
  import opened TcpSegments
  import opened TcpTypes
  import opened TcpSender
  import opened TcpReceiver
  import opened TcpEndpoint
  import opened TcpSystem
  import opened TcpPolicies
  import opened TcpRuns
  import opened TcpRecovery

  // ---- Sending answers ----

  /** A packet has been put on the network. */
  predicate AtOnce(t: Tcb, u: Tcb) { |t.io.out| < |u.io.out| }

  /** Nothing stands in the way of an answer at once. */
  predicate Unhindered(t: Tcb, w: Writer)
    requires Wf(t)
  {
    !AckRefused(t, ImmediateAck, w) && !HeldBack(t) && !DataRefused(t, w)
  }

  lemma FinishAtOnce(t: Tcb, now: nat, w: Writer)
    requires Wf(t)
    ensures AtOnce(t, FinishSend(t, ImmediateAck, now, w)) <==> w(t.io.writes).Success?
  {
    assert t.snd.buf.Valid();
    hide SndOk, CcOk, Wf, Acknowledging, Quiet, NewPacket;
  }

  lemma TurnAtOnce(t: Tcb, now: nat, w: Writer)
    requires Wf(t)
    ensures var (done, u) := Turn(t, ImmediateAck, now, w);
            (AtOnce(t, u) <==> Unhindered(t, w)) && (!done ==> AtOnce(t, u))
  {
    var n := Available(t);
    FinishAtOnce(t, now, w);
    hide Available, FinishSend, SendNext, CcOk, Sends, Takes, NextLength;
    if n > 0 && !NagleHolds(t, n) {
      SendNextTakes(t, n, now, w);
    }
  }

  lemma LoopAtOnce(t: Tcb, now: nat, w: Writer)
    requires Wf(t)
    ensures AtOnce(t, AttemptLoop(t, ImmediateAck, now, w)) <==> Unhindered(t, w)
  {
    TurnAtOnce(t, now, w);
    var (done, u) := Turn(t, ImmediateAck, now, w);
    hide Turn, Unhindered;
    if !done {
      assert Quiet(u, AttemptLoop(u, None, now, w));
    }
  }

  /** An immediate acknowledgment goes out exactly when nothing stands in its way. */
  lemma ImmediatelyExactly(t: Tcb, now: nat, w: Writer)
    requires Wf(t)
    ensures AtOnce(t, AttemptSend(t, ImmediateAck, now, w)) <==> Unhindered(Restarted(t, now), w)
  {
    hide AttemptLoop, Unhindered;
    LoopAtOnce(Restarted(t, now), now, w);
  }

  lemma NoneAsked(t: Tcb, now: nat, w: Writer)
    requires Wf(t) && Available(Restarted(t, now)) == 0
    ensures var u := AttemptSend(t, None, now, w); u.io == t.io && u.tm.tAck == t.tm.tAck
  {
    hide Available, SendNext;
  }

  // ---- A packet arrives ----

  /** The endpoint that has looked at the acknowledgment of `p` and taken its payload, before it
      answers; nothing when the connection ended. */
  function BeforeReply(t: Tcb, p: Packet, now: nat, w: Writer): (r: Acked)
    requires Wf(t) && Hears(t, p, now)
    ensures Wf(r.t)
  {
    var c := Control(Received(t, now), p);
    match Acknowledge(Hearing(t, p, now), p, now, w)
    case Dropped(u) => Dropped(u)
    case Fine(u) =>
      var x := AfterAck(u, c.connect);
      var v := ArriveAt(x, p);
      Fine(WithRcv(x, v.rcv, v.halted))
  }

  /** The bytes of `p` that are new at the front of `r` and have room. */
  function NewInOrder(r: Rcv, p: Packet): nat
    requires r.buf.Valid()
  {
    Min(|p.data|, r.buf.Free())
  }

  /** A stretch received before has come into reach: `nxt` moves beyond the new bytes. */
  predicate Recovers(t: Tcb, p: Packet)
    requires t.rcv.buf.Valid()
  {
    ArriveAt(t, p).rcv.nxt > t.rcv.nxt + NewInOrder(t.rcv, p)
  }

  lemma {:induction false} FoundMoves(r: Rcv)
    requires r.buf.Valid()
    ensures var v := Recover(r); r.nxt <= v.rcv.nxt && (v.found <==> r.nxt < v.rcv.nxt)
    decreases |r.rlist|
  {
    if r.rlist != [] && r.rlist[0].seqno <= r.nxt {
      var e := r.rlist[0];
      var rest := r.(rlist := r.rlist[1..]);
      if e.seqno + e.len > r.nxt {
        if e.seqno + e.len - r.nxt <= r.buf.Free() {
          FoundMoves(Advance(rest, e.seqno + e.len - r.nxt));
        }
      } else {
        FoundMoves(rest);
      }
    }
  }

  lemma TrimInOrder(r: Rcv, data: seq<byte>)
    requires r.buf.Valid()
    ensures var (at, d) := Trim(r, r.nxt, data); |d| == Min(|data|, r.buf.Free()) && (d != [] ==> at == r.nxt)
  {
  }

  lemma PlaceRecovers(r: Rcv, data: seq<byte>, ignore: bool)
    requires r.buf.Valid() && |data| <= r.buf.Free()
    ensures var v := Place(r, r.nxt, data, ignore);
            v.taken && (v.recovered <==> v.rcv.nxt > r.nxt + |data|)
  {
    if data != [] {
      if ignore {
        FoundMoves(Skip(r, |data|));
      } else {
        FoundMoves(Advance(r.(buf := r.buf.Put(data, 0)), |data|));
      }
    }
    hide Recover;
  }

  /** The source asks for an immediate acknowledgment exactly when a stretch was recovered. */
  lemma RecoversInOrder(t: Tcb, p: Packet)
    requires t.rcv.buf.Valid() && p.seqno == t.rcv.nxt
    ensures ArriveAt(t, p).taken && (ArriveAt(t, p).recovered <==> Recovers(t, p))
  {
    TrimInOrder(t.rcv, p.data);
    var (at, d) := Trim(t.rcv, p.seqno, p.data);
    hide Trim;
    PlaceRecovers(t.rcv, d, HasCtl(p.flags) || !t.shutdown.NoShutdown?);
    if d == [] {
      assert Place(t.rcv, at, d, HasCtl(p.flags) || !t.shutdown.NoShutdown?) ==
             Place(t.rcv, t.rcv.nxt, d, HasCtl(p.flags) || !t.shutdown.NoShutdown?);
    }
    hide Place;
  }

  lemma AlwaysTaken(t: Tcb, p: Packet)
    requires t.rcv.buf.Valid()
    ensures ArriveAt(t, p).taken
  {
    var (at, d) := Trim(t.rcv, p.seqno, p.data);
    hide Trim, Recover;
  }

  // ---- What a packet asks for ----

  /** The receiving half and the delay are those of before when the payload is taken. */
  lemma HearingKeepsRcv(t: Tcb, p: Packet, now: nat)
    requires Wf(t)
    ensures var h := Hearing(t, p, now);
            h.rcv.nxt == t.rcv.nxt && h.ackDelay == t.ackDelay && h.shutdown == t.shutdown
  {
    hide Control, SndOk, CcOk;
    ControlKeepsRcv(Received(t, now), p);
  }

  ghost predicate SameRcvNxt(t: Tcb, u: Tcb) {
    u.rcv.nxt == t.rcv.nxt && u.ackDelay == t.ackDelay && u.shutdown == t.shutdown
  }

  lemma ControlKeepsRcv(t: Tcb, p: Packet)
    requires Wf(t)
    ensures SameRcvNxt(t, Control(t, p).t)
  {
    hide ApplyOptions, Shake, OptionsOf, Quiet, SndOk, CcOk, Armed, Steady, Roomy;
    if HasCtl(p.flags) && p.data != [] {
      ApplyKeepsRcv(t, OptionsOf(p));
      ShakeKeepsRcv(ApplyOptions(t, OptionsOf(p)));
    }
  }

  lemma ApplyKeepsRcv(t: Tcb, o: Options)
    requires Wf(t)
    ensures SameRcvNxt(t, ApplyOptions(t, o))
  {
    hide Reverted, Segs, CcOk;
    RevertKeepsRcv(if o.scale == [] then t else t.(snd := t.snd.(scale := o.scale[0])));
  }

  lemma FitKeepsRcv(t: Tcb, size: nat, scale: nat)
    requires Wf(t) && 4 <= size
    ensures SameRcvNxt(t, FitBuffer(t, size, scale))
  {
    hide SndOk, CcOk;
  }

  lemma RevertKeepsRcv(t: Tcb)
    requires Wf(t)
    ensures SameRcvNxt(t, Reverted(t))
  {
    hide FitBuffer, SndOk, CcOk;
    var (k, f) := ScaledSize(DEFAULT_RCV_BUF_SIZE);
    ScaledIsLarge(DEFAULT_RCV_BUF_SIZE);
    FitKeepsRcv(t, k * Pow2(f), f);
  }

  lemma ShakeKeepsRcv(t: Tcb)
    requires Wf(t)
    ensures SameRcvNxt(t, Shake(t))
  {
    hide SndOk, CcOk;
  }

  /** Whether a packet wants an answer at once, from its number, its payload and the delay. */
  predicate WantsNow(t: Tcb, h: Tcb, p: Packet)
    requires h.rcv.buf.Valid()
  {
    p.seqno != t.rcv.nxt || (p.data != [] && t.ackDelay == 0) || Recovers(h, p)
  }

  lemma ArrivesTheSame(t: Tcb, u: Tcb, p: Packet)
    requires Quiet(t, u) && t.rcv.buf.Valid()
    ensures ArriveAt(u, p) == ArriveAt(t, p)
  {
  }

  /** What processing a packet comes to after its acknowledgment and payload: it is answered as it
      asks for, and the application told. */
  lemma ReplyIs(t: Tcb, p: Packet, now: nat, w: Writer)
    requires Wf(t) && Hears(t, p, now)
    ensures var (h, r, v) := (Hearing(t, p, now), BeforeReply(t, p, now, w), Process(t, p, now, w).1);
            && (r.Dropped? ==> v == r.t)
            && (r.Fine? && r.t.halted ==> v == r.t)
            && (r.Fine? && !r.t.halted ==>
                  var flags := if ArriveAt(h, p).recovered then ImmediateAck else ReplyFlags(h, p);
                  SameAnswer(AttemptSend(r.t, flags, now, w), v))
  {
    ProcessHandles(t, p, now, w);
    var h := Hearing(t, p, now);
    var c := Control(Received(t, now), p);
    hide Process, Control, Acknowledge, Stamp, Rest, SndOk, CcOk, Keeps, Renegotiates;
    var a := Acknowledge(h, p, now, w);
    if a.Fine? {
      RestReplies(h, a.t, p, c.connect, now, w);
    }
  }

  /** What the notification of new data leaves alone. */
  predicate SameAnswer(u: Tcb, v: Tcb) { v.io.out == u.io.out && v.tm == u.tm && v.snd == u.snd && v.rcv == u.rcv }

  lemma PayloadReplies(t: Tcb, p: Packet, now: nat, w: Writer)
    requires Wf(t)
    ensures var v := ArriveAt(t, p);
            var x := WithRcv(t, v.rcv, v.halted);
            var r := Payload(t, p, now, w).1;
            && (v.halted ==> r == x)
            && (!v.halted ==>
                  SameAnswer(AttemptSend(x, if v.recovered then ImmediateAck else ReplyFlags(t, p), now, w), r))
  {
    AlwaysTaken(t, p);
    hide AttemptSend, ArriveAt, ReplyFlags, SndOk, CcOk, Armed, Steady, Roomy, Sends;
  }

  lemma RestReplies(h: Tcb, t: Tcb, p: Packet, connect: bool, now: nat, w: Writer)
    requires Wf(h) && Wf(t) && Quiet(h, t)
    ensures var u := AfterAck(t, connect);
            var v := ArriveAt(u, p);
            var x := WithRcv(u, v.rcv, v.halted);
            var r := Rest(t, p, connect, now, w).1;
            && (v.halted ==> r == x)
            && (!v.halted ==>
                  var flags := if ArriveAt(h, p).recovered then ImmediateAck else ReplyFlags(h, p);
                  SameAnswer(AttemptSend(x, flags, now, w), r))
  {
    var u := AfterAck(t, connect);
    hide AttemptSend, ArriveAt, AfterAck, Payload, SameAnswer, SndOk, CcOk, Armed, Steady, Roomy;
    ArrivesTheSame(h, t, p);
    ArrivesTheSame(t, u, p);
    PayloadReplies(u, p, now, w);
  }

  /** Nothing stands in the way of an answer now or later: a bare acknowledgment that goes at once
      because one is due already is taken; data are neither held back nor refused, unless an
      acknowledgment is due. */
  predicate UnhinderedLater(t: Tcb, w: Writer)
    requires Wf(t)
  {
    !AckRefused(t, DelayedAck, w) && !(t.tm.tAck == 0 && (HeldBack(t) || DataRefused(t, w)))
  }

  /** What `v` has answered to packet `p`, which came to `t`; `x` is the endpoint before it answered.
      A packet that is not the next in order, that brings payload when no delay is set, or that makes
      an earlier stretch readable, is answered at once; one that brings payload in order is answered
      at once or later; and a bare packet in order asks for nothing. */
  ghost predicate Answered(t: Tcb, h: Tcb, x: Tcb, v: Tcb, p: Packet, now: nat, w: Writer)
    requires Wf(x) && h.rcv.buf.Valid()
  {
    var u := Restarted(x, now);
    if WantsNow(t, h, p) then AtOnce(x, v) <==> Unhindered(u, w)
    else if p.data != [] then (AtOnce(x, v) || v.tm.tAck != 0) <==> UnhinderedLater(u, w)
    else Available(u) == 0 ==> v.io.out == x.io.out && v.tm.tAck == x.tm.tAck
  }

  lemma FlagsAsked(t: Tcb, h: Tcb, p: Packet)
    requires h.rcv.buf.Valid() && h.rcv.nxt == t.rcv.nxt && h.ackDelay == t.ackDelay
    ensures var flags := if ArriveAt(h, p).recovered then ImmediateAck else ReplyFlags(h, p);
            flags == if WantsNow(t, h, p) then ImmediateAck else if p.data != [] then DelayedAck else None
  {
    if p.seqno == h.rcv.nxt {
      RecoversInOrder(h, p);
    }
    hide ArriveAt, Recovers;
  }

  lemma AnswersAsAsked(t: Tcb, h: Tcb, x: Tcb, v: Tcb, p: Packet, now: nat, w: Writer)
    requires Wf(x) && h.rcv.buf.Valid() && now > 0
    requires var flags := if WantsNow(t, h, p) then ImmediateAck else if p.data != [] then DelayedAck else None;
             SameAnswer(AttemptSend(x, flags, now, w), v)
    ensures Answered(t, h, x, v, p, now, w)
  {
    hide WantsNow, AttemptSend, Unhindered, AckRefused, HeldBack, DataRefused, Available, SndOk, CcOk;
    if WantsNow(t, h, p) {
      ImmediatelyExactly(x, now, w);
    } else if p.data != [] {
      RepliesExactly(x, DelayedAck, now, w);
    } else if Available(Restarted(x, now)) == 0 {
      NoneAsked(x, now, w);
    }
  }

  /** Every packet that is looked at is answered as it asks, by the endpoint that has taken its
      acknowledgment and its payload: unless the connection ends or an assertion fails. */
  lemma PacketsAreAnswered(t: Tcb, p: Packet, now: nat, w: Writer)
    requires Wf(t) && now > 0 && Hears(t, p, now)
    ensures var r := BeforeReply(t, p, now, w);
            r.Fine? && !r.t.halted ==> Answered(t, Hearing(t, p, now), r.t, Process(t, p, now, w).1, p, now, w)
  {
    var h := Hearing(t, p, now);
    HearingKeepsRcv(t, p, now);
    ReplyIs(t, p, now, w);
    FlagsAsked(t, h, p);
    var r := BeforeReply(t, p, now, w);
    hide BeforeReply, Hearing, Process, ArriveAt, WantsNow, Answered, ReplyFlags, Hears, AttemptSend, SndOk, CcOk;
    if r.Fine? && !r.t.halted {
      AnswersAsAsked(t, h, r.t, Process(t, p, now, w).1, p, now, w);
    }
  }

  lemma DelayStarts(t: Tcb, now: nat, w: Writer)
    requires Wf(t) && t.tm.tAck == 0 && Available(Restarted(t, now)) == 0
    ensures var u := AttemptSend(t, DelayedAck, now, w); u.tm.tAck == now && u.io == t.io
  {
    hide AttemptLoop, Available, TimeDiff32;
    LoopDelays(Restarted(t, now), now, w);
  }

  lemma LoopDelays(t: Tcb, now: nat, w: Writer)
    requires Wf(t) && t.tm.tAck == 0 && Available(t) == 0
    ensures AttemptLoop(t, DelayedAck, now, w) == t.(tm := t.tm.(tAck := now))
  {
    hide Turn, Available;
    TurnDelays(t, now, w);
  }

  lemma TurnDelays(t: Tcb, now: nat, w: Writer)
    requires Wf(t) && t.tm.tAck == 0 && Available(t) == 0
    ensures Turn(t, DelayedAck, now, w) == (true, t.(tm := t.tm.(tAck := now)))
  {
    hide Available, SendNext;
  }

  /** Payload in order, with a delay set, none running and nothing to send: the delay begins. */
  lemma DelayBegins(t: Tcb, p: Packet, now: nat, w: Writer)
    requires Wf(t) && now > 0 && Hears(t, p, now)
    requires p.seqno == t.rcv.nxt && p.data != [] && t.ackDelay > 0
    ensures var (r, v) := (BeforeReply(t, p, now, w), Process(t, p, now, w).1);
            r.Fine? && !r.t.halted && !Recovers(Hearing(t, p, now), p)
            && r.t.tm.tAck == 0 && Available(Restarted(r.t, now)) == 0 ==>
              v.tm.tAck == now && v.io.out == r.t.io.out
  {
    var (h, r) := (Hearing(t, p, now), BeforeReply(t, p, now, w));
    HearingKeepsRcv(t, p, now);
    ReplyIs(t, p, now, w);
    FlagsAsked(t, h, p);
    hide BeforeReply, Hearing, Process, ArriveAt, Recovers, ReplyFlags, Hears, AttemptSend, Available, SndOk, CcOk;
    if r.Fine? && r.t.tm.tAck == 0 && Available(Restarted(r.t, now)) == 0 {
      DelayStarts(r.t, now, w);
    }
  }

  // ---- The delay passes ----

  ghost predicate TakesAll(t: Tcb, w: Writer) { forall k {:trigger w(k)} :: t.io.writes <= k ==> w(k).Success? }

  /** The acknowledgment that was due is still due, or has been written, and goes out if the network
      takes what is written. */
  ghost predicate Clears(t: Tcb, u: Tcb, w: Writer) {
    && t.io.writes <= u.io.writes && |t.io.out| <= |u.io.out| && u.ackDelay == t.ackDelay
    && (u.tm.tAck == t.tm.tAck || (u.tm.tAck == 0 && (TakesAll(t, w) ==> AtOnce(t, u))))
  }

  lemma ClearsInTurn(t: Tcb, u: Tcb, v: Tcb, w: Writer)
    requires Clears(t, u, w) && Clears(u, v, w)
    ensures Clears(t, v, w)
  {
  }

  lemma SendAckClears(t: Tcb, seqno: nat, now: nat, w: Writer)
    requires t.snd.buf.Valid()
    ensures var u := SendAck(t, seqno, now, w);
            && u.tm.tAck == 0 && t.io.out <= u.io.out && u.ackDelay == t.ackDelay
            && u.io.writes == t.io.writes + 1 && u.state == t.state
            && (w(t.io.writes).Success? ==> AtOnce(t, u))
  {
    hide NewPacket;
  }

  lemma WritesGrow(t: Tcb, now: nat, w: Writer)
    requires Wf(t) && t.snd.una < t.snd.nxt && Transmittable(t.snd, 0)
    ensures var u := Transmit(t, 0, now, w).1;
            t.io.writes <= u.io.writes && (u.tm.tAck == t.tm.tAck || (u.tm.tAck == 0 && AtOnce(t, u)))
  {
    var s := t.snd.slist[0];
    SegmentFits(t.snd, 0);
    if t.snd.una <= s.seqno {
      SendLoopClears(t, s, Min(s.len, t.cc.mss), now, w);
    }
    hide SendLoop, Segs, Tries, Sends, Quiet;
  }

  lemma {:induction false} SendLoopClears(t: Tcb, s: SSegment, n: nat, now: nat, w: Writer)
    requires t.snd.buf.Valid() && CcOk(t.cc) && 0 < n <= s.len
    requires t.snd.una <= s.seqno && s.seqno - t.snd.una + n <= t.snd.buf.len
    ensures var u := SendLoop(t, s, n, now, w).t;
            t.io.writes <= u.io.writes && (u.tm.tAck == t.tm.tAck || (u.tm.tAck == 0 && AtOnce(t, u)))
    decreases LAST_LEVEL - t.cc.level
  {
    hide Quiet, Tries, SendOnce;
    SendOnceClears(t, s, n, now, w);
    var (res, t1) := SendOnce(t, s, n, now, w);
    if res.TooLarge? {
      TriesAtAll(t, t1);
      var (lower, t2) := Fallback(t1, n);
      TriesAtAll(t1, t2);
      FallbackKeepsTm(t1, n);
      if lower {
        SendLoopClears(t2, s, t2.cc.mss, now, w);
      }
    }
  }

  lemma FallbackKeepsTm(t: Tcb, n: nat)
    requires CcOk(t.cc)
    ensures Fallback(t, n).1.tm == t.tm
  {
  }

  lemma SendOnceClears(t: Tcb, s: SSegment, n: nat, now: nat, w: Writer)
    requires t.snd.buf.Valid() && CcOk(t.cc) && n > 0
    requires t.snd.una <= s.seqno && s.seqno - t.snd.una + n <= t.snd.buf.len
    ensures var (res, u) := SendOnce(t, s, n, now, w);
            && u.io.writes == t.io.writes + 1
            && if res.Success? then u.tm.tAck == 0 && AtOnce(t, u) else u.tm.tAck == t.tm.tAck && u.io.out == t.io.out
  {
    hide Acknowledging, Quiet, NewPacket, Tries, SameClock;
  }

  lemma TimeoutClears(t: Tcb, now: nat, w: Writer)
    requires Wf(t)
    ensures Clears(t, RetransmitOnTimeout(t, now, w).t, w)
  {
    hide Transmit, SndOk, CcOk, Keeps, RetransmitDue, Steady, Armed, Roomy;
    if RetransmitDue(t, now) && t.snd.slist != [] {
      OnTimeoutClears(t, now, w);
    }
  }

  lemma OnTimeoutClears(t: Tcb, now: nat, w: Writer)
    requires Wf(t) && RetransmitDue(t, now)
    ensures Clears(t, RetransmitOnTimeout(t, now, w).t, w)
  {
    FrontInFlight(t.snd.slist, t.snd.una, t.snd.nxt, t.snd.una + t.snd.buf.len);
    WritesGrow(t, now, w);
    hide Transmit, SndOk, CcOk, RetransmitDue, Steady, Armed, Roomy;
  }

  lemma ProbeClears(t: Tcb, now: nat, w: Writer)
    requires Wf(t)
    ensures Clears(t, Probe(t, now, w).t, w)
  {
    assert t.snd.buf.Valid();
    hide SendAck, SndOk, CcOk, Wf, Keeps, TimeDiff32, Due, Quiet, TakesAll, SameBuffer, AtOnce;
    SendAckClears(t, Wrap32(t.snd.nxt - 1), now, w);
    TakesNext(t, w);
    SameIsClear(t, Closedown(t, ConnectionAborted), w);
    var u := SendAck(t, Wrap32(t.snd.nxt - 1), now, w);
    IsClear(t, u, u.(tm := u.tm.(lastsend := now, rto := Min(MAX_RTO, u.tm.rto * 2))), w);
    hide Clears;
  }

  lemma SameIsClear(t: Tcb, u: Tcb, w: Writer)
    requires u.io.writes == t.io.writes && u.io.out == t.io.out && u.ackDelay == t.ackDelay && u.tm == t.tm
    ensures Clears(t, t, w) && Clears(t, u, w)
  {
  }

  lemma IsClear(t: Tcb, u: Tcb, v: Tcb, w: Writer)
    requires v == u.(tm := v.tm) && v.tm.tAck == 0 && t.io.writes <= u.io.writes && t.io.out <= u.io.out
    requires u.ackDelay == t.ackDelay && (TakesAll(t, w) ==> AtOnce(t, u))
    ensures Clears(t, v, w)
  {
  }

  lemma TakesNext(t: Tcb, w: Writer)
    ensures TakesAll(t, w) ==> w(t.io.writes).Success?
  {
  }

  lemma AckOnTimeClears(t: Tcb, now: nat, w: Writer)
    requires Wf(t)
    ensures var u := AckOnTime(t, now, w);
            && Clears(t, u, w) && u.state == t.state
            && (t.tm.tAck != 0 && TimeDiff32(t.tm.tAck + t.ackDelay, now) <= 0 ==> u.tm.tAck == 0)
  {
    SendAckClears(t, t.snd.nxt, now, w);
    hide SendAck, SndOk, CcOk, TimeDiff32;
  }

  /** Once the delay has passed, the clock writes the acknowledgment, which goes out if the network
      takes it; unless the clock ends the connection. */
  lemma DelayedAcknowledgmentGoesOut(t: Tcb, now: nat, w: Writer)
    requires Wf(t) && !t.halted && !t.state.Closed?
    requires t.tm.tAck != 0 && TimeDiff32(t.tm.tAck + t.ackDelay, now) <= 0
    ensures var u := NotifyClock(t, now, w);
            !u.state.Closed? ==> u.tm.tAck == 0 && (TakesAll(t, w) ==> AtOnce(t, u))
  {
    hide RetransmitOnTimeout, Probe, AckOnTime, Clears, TimeDiff32, SndOk, CcOk, Quiet;
    TimeoutClears(t, now, w);
    var a := RetransmitOnTimeout(t, now, w);
    if a.Fine? {
      ProbeClears(a.t, now, w);
      var b := Probe(a.t, now, w);
      ClearsInTurn(t, a.t, b.t, w);
      if b.Fine? {
        AckOnTimeClears(b.t, now, w);
        ClearsInTurn(t, b.t, AckOnTime(b.t, now, w), w);
        ClearedAtLast(t, b.t, AckOnTime(b.t, now, w), now, w);
      }
    }
  }

  lemma ClearedAtLast(t: Tcb, u: Tcb, v: Tcb, now: nat, w: Writer)
    requires t.tm.tAck != 0 && TimeDiff32(t.tm.tAck + t.ackDelay, now) <= 0
    requires Clears(t, u, w) && Clears(t, v, w) && Clears(u, v, w)
    requires u.tm.tAck != 0 && TimeDiff32(u.tm.tAck + u.ackDelay, now) <= 0 ==> v.tm.tAck == 0
    ensures v.tm.tAck == 0 && (TakesAll(t, w) ==> AtOnce(t, v))
  {
    hide TimeDiff32, TakesAll;
  }

  // ---- The window opens again ----

  /** A window that was shut opens exactly when enough has become free. */
  lemma OpensWhenFree(r: Rcv, n: nat, mss: nat)
    requires r.buf.Valid() && n <= r.buf.len && 0 < mss && 2 <= |r.buf.slots| < U32 && r.wnd == 0
    ensures Taken(r, n, mss).wnd > 0 <==> Reopens(r.(buf := r.buf.ConsumeRead(n)), mss)
  {
  }

  lemma TakingTells(t: Tcb, n: nat, now: nat, w: Writer)
    requires Wf(t) && n <= t.rcv.buf.len && 2 <= |t.rcv.buf.slots| < U32
    ensures var u := TakeBytes(t, n, now, w);
            var x := t.(rcv := u.rcv);
            && Wf(x)
            && (t.rcv.wnd == 0 && u.rcv.wnd > 0 ==> (AtOnce(t, u) <==> Unhindered(Restarted(x, now), w)))
            && (t.rcv.wnd > 0 || u.rcv.wnd == 0 ==> u.io == t.io)
  {
    hide AttemptSend, Unhindered, Restarted, Taken, Reopens, SndOk, Steady, Armed, Roomy, Acknowledging;
    if t.rcv.wnd == 0 {
      OpensWhenFree(t.rcv, n, t.cc.mss);
    }
    ImmediatelyExactly(WithRcv(t, Taken(t.rcv, n, t.cc.mss), t.halted), now, w);
  }

  /** Reading that opens a window that was shut tells the peer at once; other reading sends nothing. */
  lemma WindowUpdateGoesOut(t: Tcb, n: nat, now: nat, w: Writer)
    requires Wf(t) && !t.halted && t.state.Established? && t.rcv.buf.len > 0
    requires 2 <= |t.rcv.buf.slots| < U32
    ensures var u := Receive(t, n, now, w).2;
            var x := t.(rcv := u.rcv);
            && Wf(x)
            && (t.rcv.wnd == 0 && u.rcv.wnd > 0 ==> (AtOnce(t, u) <==> Unhindered(Restarted(x, now), w)))
            && (t.rcv.wnd > 0 || u.rcv.wnd == 0 ==> u.io == t.io)
  {
    hide TakeBytes, Unhindered, Restarted, SndOk, CcOk, Steady, Armed, Roomy, Acknowledging;
    TakingTells(t, |t.rcv.buf.Peek(n, 0)|, now, w);
  }

  // ---- The window is learned ----

  lemma ProgressKeepsWnd(t: Tcb, p: Packet, now: nat, w: Writer)
    requires Wf(t) && t.snd.una < p.ack <= t.snd.nxt
    ensures NewAck(t, p, now, w).t.snd.wnd == WindowOf(p, t.snd.scale)
  {
    hide Progress, EstimateFrom, AckFree, WindowOf, Quiet, Segs, CcOk, Armed, Steady, Roomy;
    AckBytesLearns(t.(tm := EstimateFrom(t.tm, p, now)), p, now);
  }

  lemma AckBytesLearns(t: Tcb, p: Packet, now: nat)
    requires t.snd.una < p.ack <= t.snd.nxt
    ensures Wf(t) ==> AckBytes(t, p, now).snd.wnd == WindowOf(p, t.snd.scale)
  {
    hide WindowOf, Quiet, Segs, CcOk, Armed, Steady, Roomy;
  }

  lemma AcknowledgeLearns(t: Tcb, p: Packet, now: nat, w: Writer)
    requires Wf(t) && t.snd.una <= p.ack <= t.snd.nxt
    ensures Acknowledge(t, p, now, w).t.snd.wnd == WindowOf(p, t.snd.scale)
  {
    hide NewAck, Repeated, WindowOf, Segs, CcOk, Quiet, Armed, Steady, Roomy;
    if t.snd.una < p.ack {
      ProgressKeepsWnd(t, p, now, w);
    }
  }

  lemma RestKeepsWnd(t: Tcb, p: Packet, connect: bool, now: nat, w: Writer)
    requires Wf(t)
    ensures Rest(t, p, connect, now, w).1.snd.wnd == t.snd.wnd
  {
    hide AfterAck, Payload, SndOk, CcOk, Quiet, Armed, Steady, Roomy;
    PayloadKeepsWnd(AfterAck(t, connect), p, now, w);
  }

  lemma PayloadKeepsWnd(t: Tcb, p: Packet, now: nat, w: Writer)
    requires Wf(t)
    ensures Payload(t, p, now, w).1.snd.wnd == t.snd.wnd
  {
    hide AttemptSend, ArriveAt, SndOk, CcOk, Quiet, ReplyFlags, Armed, Steady, Roomy, SameRecovery;
  }

  lemma PlainKeepsSnd(t: Tcb, p: Packet, now: nat)
    requires Wf(t) && !HasCtl(p.flags)
    ensures Hearing(t, p, now).snd == t.snd
  {
    hide SndOk, CcOk;
  }

  lemma NearlyScaled(w: nat, q: nat)
    requires q > 0 && w < 0x10000 * q
    ensures w / q % 0x10000 == w / q && w - q < w / q * q <= w
  {
    var k, r := w / q, w % q;
    assert w == k * q + r;
    assert q * k == k * q;
    if k >= 0x10000 {
      Timeses(q, 0x10000, k);
    }
  }

  /** The window that a packet of the peer announces is learned, but for what its scale rounds off. */
  lemma WindowIsLearned(t: Tcb, p: Packet, r: Rcv, now: nat, w: Writer)
    requires Wf(t) && Hears(t, p, now) && !HasCtl(p.flags) && t.snd.una <= p.ack <= t.snd.nxt
    requires AckHeader(p, r) && r.scale == t.snd.scale && r.wnd < U32 && r.wnd < 0x10000 * Pow2(r.scale)
    ensures r.wnd - Pow2(r.scale) < Process(t, p, now, w).1.snd.wnd <= r.wnd
  {
    hide Process, Control, Acknowledge, Rest, Hearing, Hears, Wf, Pow2;
    ProcessIs(t, p, now, w);
    PlainKeepsSnd(t, p, now);
    AcknowledgeLearns(Hearing(t, p, now), p, now, w);
    var a := Acknowledge(Hearing(t, p, now), p, now, w);
    if a.Fine? {
      RestKeepsWnd(a.t, p, Control(Received(t, now), p).connect, now, w);
    }
    NearlyScaled(r.wnd, Pow2(r.scale));
  }
}
