/** What the application is told: that the connection has opened or ended, that there is something to
    read, and that there is room to write. */
module TcpEvents {
  import opened Numbers
  import opened FifoBuffers
  import opened TcpSegments
  import opened TcpTypes
  import opened TcpSender
  import opened TcpReceiver
  import opened TcpEndpoint
  import opened TcpSystem
  import opened TcpRuns
  import opened TcpDuplicates
  import opened TcpRecovery
  import opened TcpReplies
  import opened TcpStamps

  // ---- What an acknowledgment and the clock tell ----

  /** The application is told nothing, or that the connection has been given up. */
  predicate Mutes(t: Tcb, u: Tcb) {
    && u.readEnable == t.readEnable && u.writeEnable == t.writeEnable
    && if !t.state.Closed? && u.state.Closed? then u.io.events == t.io.events + [ClosedWith(ConnectionAborted)]
       else u.state == t.state && u.io.events == t.io.events
  }

  lemma TransmitMutes(t: Tcb, i: nat, now: nat, w: Writer)
    requires Wf(t) && Transmittable(t.snd, i)
    ensures Mutes(t, Transmit(t, i, now, w).1)
  {
    hide Transmit, Stamps, SndOk, CcOk, Quiet, SameBuffer, SameRecovery, Steady, Roomy;
    TransmitStamps(t, i, now, w);
  }

  lemma RetransmitMutes(t: Tcb, now: nat, w: Writer)
    requires Wf(t) && t.snd.una < t.snd.nxt && !t.state.Closed?
    ensures var r := Retransmit(t, now, w); Mutes(t, r.t) && (r.Dropped? <==> r.t.state.Closed?)
  {
    FrontIsOld(t);
    hide Transmit, SndOk, CcOk, Quiet, SameBuffer, SameRecovery, Steady, Roomy;
    TransmitMutes(t, 0, now, w);
  }

  /** Nothing is told as long as the connection lives. */
  predicate AckMutes(t: Tcb, r: Acked) { Mutes(t, r.t) && (r.Dropped? <==> r.t.state.Closed?) }

  lemma ProgressMutes(t: Tcb, n: nat, now: nat, w: Writer)
    requires Wf(t) && !t.state.Closed?
    ensures AckMutes(t, Progress(t, n, now, w))
  {
    hide Retransmit, Keeps, Quiet, Segs, CcOk, SameBuffer;
    if t.cc.dupAcks >= 3 && t.snd.una < t.cc.recover {
      RetransmitMutes(t, now, w);
    }
  }

  lemma AckBytesMutes(t: Tcb, p: Packet, now: nat)
    requires Wf(t) && t.snd.una < p.ack <= t.snd.nxt
    ensures Wf(t.(tm := EstimateFrom(t.tm, p, now)))
    ensures var u := AckBytes(t.(tm := EstimateFrom(t.tm, p, now)), p, now);
            Mutes(t, u) && u.state == t.state
  {
    hide Freed, TimeDiff32, Quiet, Segs;
  }

  lemma NewAckMutes(t: Tcb, p: Packet, now: nat, w: Writer)
    requires Wf(t) && t.snd.una < p.ack <= t.snd.nxt && !t.state.Closed?
    ensures AckMutes(t, NewAck(t, p, now, w))
  {
    hide Progress, AckBytes, EstimateFrom, Quiet, Segs, CcOk, Steady, Armed, Roomy;
    AckBytesMutes(t, p, now);
    var u := AckBytes(t.(tm := EstimateFrom(t.tm, p, now)), p, now);
    ProgressMutes(u, p.ack - t.snd.una, now, w);
  }

  lemma SilentMutes(t: Tcb, u: Tcb, v: Tcb)
    ensures Mutes(t, u) && Silent(u, v) && v.state == u.state ==> Mutes(t, v)
  {
  }

  lemma SameMutes(t: Tcb)
    ensures Mutes(t, t)
  {
  }

  lemma EnterMutes(t: Tcb, u: Tcb, now: nat, w: Writer)
    requires Wf(t) && t.snd.una < t.snd.nxt && Retransmit(t, now, w) == Fine(u)
    ensures Wf(u) && Silent(u, EnterRecovery(u)) && EnterRecovery(u).state == u.state
  {
    hide Retransmit, SndOk, CcOk, Quiet, InFlight, Sends, Steady, Armed, Roomy;
  }

  lemma CountMutes(t: Tcb, now: nat, w: Writer)
    requires Wf(t) && t.snd.una < t.snd.nxt && !t.state.Closed?
    ensures AckMutes(t, CountDuplicate(t, now, w))
  {
    hide Retransmit, EnterRecovery, Keeps, Quiet, SndOk, CcOk, InFlight, SameBuffer, Sends, Mutes, Wf;
    RetransmitMutes(t, now, w);
    var r := Retransmit(t, now, w);
    if r.Fine? {
      EnterMutes(t, r.t, now, w);
      SilentMutes(t, r.t, EnterRecovery(r.t));
    }
    SameMutes(t);
    SilentMutes(t, t, t.(cc := t.cc.(cwnd := t.cc.cwnd + t.cc.mss)));
  }

  lemma RepeatedMutes(t: Tcb, bare: bool, now: nat, w: Writer)
    requires Wf(t) && !t.state.Closed?
    ensures AckMutes(t, Repeated(t, bare, now, w))
  {
    EndIsLast(t.snd.slist, t.snd.una, t.snd.nxt, t.snd.una + t.snd.buf.len);
    hide CountDuplicate, Keeps, Quiet, SndOk, CcOk, SameBuffer;
    if bare && t.snd.una < t.snd.nxt {
      CountMutes(t.(cc := t.cc.(dupAcks := (t.cc.dupAcks + 1) % 256)), now, w);
    }
  }

  lemma AcknowledgeMutes(t: Tcb, p: Packet, now: nat, w: Writer)
    requires Wf(t) && !t.state.Closed?
    ensures AckMutes(t, Acknowledge(t, p, now, w))
  {
    hide NewAck, Repeated, WindowOf, Segs, CcOk, Keeps, Quiet;
    if t.snd.una < p.ack <= t.snd.nxt {
      NewAckMutes(t, p, now, w);
    } else if p.ack == t.snd.una {
      RepeatedMutes(t.(snd := t.snd.(wnd := WindowOf(p, t.snd.scale))), p.data == [], now, w);
    }
  }

  lemma SendAckMutes(t: Tcb, seqno: nat, now: nat, w: Writer)
    requires t.snd.buf.Valid()
    ensures Silent(t, SendAck(t, seqno, now, w)) && SendAck(t, seqno, now, w).state == t.state
  {
    hide BuildPacket, Quiet, Stamps;
    BuildStamps(t, seqno, 0, 0, 0, now, w);
  }

  lemma TimeoutMutes(t: Tcb, now: nat, w: Writer)
    requires Wf(t) && !t.state.Closed?
    ensures AckMutes(t, RetransmitOnTimeout(t, now, w))
  {
    hide Retransmit, Quiet, SndOk, CcOk, Keeps, SameBuffer;
    if RetransmitDue(t, now) && t.snd.slist != [] {
      RetransmitMutes(t, now, w);
    }
  }

  lemma ProbeMutes(t: Tcb, now: nat, w: Writer)
    requires Wf(t) && !t.state.Closed?
    ensures AckMutes(t, Probe(t, now, w))
  {
    assert t.snd.buf.Valid();
    hide SendAck, Quiet, SndOk, CcOk, TimeDiff32, Keeps, Due;
    SendAckMutes(t, Wrap32(t.snd.nxt - 1), now, w);
  }

  lemma AckOnTimeMutes(t: Tcb, now: nat, w: Writer)
    requires Wf(t)
    ensures Mutes(t, AckOnTime(t, now, w)) && AckOnTime(t, now, w).state == t.state
  {
    assert t.snd.buf.Valid();
    hide SendAck, Quiet, SndOk, CcOk, TimeDiff32, Keeps, Due;
    SendAckMutes(t, t.snd.nxt, now, w);
  }

  lemma ClockMutes(t: Tcb, now: nat, w: Writer)
    requires Wf(t)
    ensures Mutes(t, NotifyClock(t, now, w)) && NotifyClock(t, now, w).snd.buf == t.snd.buf
  {
    hide RetransmitOnTimeout, Probe, AckOnTime, Quiet, SndOk, CcOk, Armed, Steady, Roomy;
    if !t.halted && !t.state.Closed? {
      TimeoutMutes(t, now, w);
      var a := RetransmitOnTimeout(t, now, w);
      if a.Fine? {
        ProbeMutes(a.t, now, w);
        var b := Probe(a.t, now, w);
        if b.Fine? {
          AckOnTimeMutes(b.t, now, w);
        }
      }
    }
  }

  // ---- What a packet tells ----

  function When(c: bool, e: Event): seq<Event> { if c then [e] else [] }

  /** The connection has opened between `t` and `u`. */
  predicate Opens(t: Tcb, u: Tcb) { u.state.Established? && !t.state.Established? }

  /** Less is buffered than the source wants in order to fill the window. */
  predicate Refills(t: Tcb) { t.snd.buf.len < (|t.snd.buf.slots| + |t.rcv.buf.slots|) / 2 }

  /** The control data of a packet at most open the connection. */
  ghost predicate ControlTold(t: Tcb, u: Tcb) {
    && u.io.events == t.io.events + When(Opens(t, u), Opened)
    && u.readEnable == t.readEnable && u.writeEnable == t.writeEnable && u.rcv.buf.len == t.rcv.buf.len
    && (u.state.Closed? <==> t.state.Closed?) && (t.state.Established? ==> u.state.Established?)
  }

  lemma ControlToldInTurn(t: Tcb, u: Tcb, v: Tcb)
    requires ControlTold(t, u) && ControlTold(u, v)
    ensures ControlTold(t, v)
  {
  }

  lemma FitTells(t: Tcb, size: nat, scale: nat)
    requires Wf(t) && 4 <= size
    ensures ControlTold(t, FitBuffer(t, size, scale))
  {
    hide SndOk, CcOk;
  }

  lemma RevertTells(t: Tcb)
    requires Wf(t)
    ensures ControlTold(t, Reverted(t))
  {
    hide FitBuffer, SndOk, CcOk;
    var (k, f) := ScaledSize(DEFAULT_RCV_BUF_SIZE);
    ScaledIsLarge(DEFAULT_RCV_BUF_SIZE);
    FitTells(t, k * Pow2(f), f);
  }

  lemma ApplyTells(t: Tcb, o: Options)
    requires Wf(t)
    ensures ControlTold(t, ApplyOptions(t, o))
  {
    hide Reverted, Segs, CcOk;
    RevertTells(if o.scale == [] then t else t.(snd := t.snd.(scale := o.scale[0])));
  }

  lemma GreetTells(t: Tcb, next: State)
    requires Wf(t) && t.state.Listen? && (next.SentSyn? || next.ReceivedSyn?)
    ensures var u := Greet(t, next);
            && Silent(t, u) && u.state == next && u.rcv == t.rcv && |u.snd.buf.slots| == |t.snd.buf.slots|
            && t.snd.buf.len <= u.snd.buf.len && u.halted == t.halted
  {
    hide Segs, CcOk, Quiet, ConnectMessage, Armed, Steady, Roomy, Keeps;
  }

  lemma EstablishTells(t: Tcb)
    requires Wf(t)
    ensures var u := Establish(t);
            && u == t.(state := Established, cc := u.cc, io := u.io) && u.io.events == t.io.events + [Opened]
  {
    hide SndOk, CcOk, Quiet, AdjustMtu, Steady, Roomy;
  }

  lemma ShakeTells(t: Tcb)
    requires Wf(t)
    ensures ControlTold(t, Shake(t))
  {
    hide SndOk, CcOk, Quiet, Greet, Establish, Keeps, Armed, Steady;
    SameControlTold(t);
    if t.state.Listen? {
      GreetTells(t, ReceivedSyn);
    } else if t.state.SentSyn? {
      EstablishTells(t);
    }
  }

  lemma ControlTells(t: Tcb, p: Packet)
    requires Wf(t)
    ensures var c := Control(t, p);
            ControlTold(t, c.t) && (c.Accept? && !c.connect ==> c.t == t)
  {
    hide OptionsOf, ApplyOptions, Shake, SndOk, CcOk, Quiet, Armed, Steady, Roomy, ControlTold;
    SameControlTold(t);
    if HasCtl(p.flags) && p.data != [] {
      ApplyTells(t, OptionsOf(p));
      ShakeTells(ApplyOptions(t, OptionsOf(p)));
      ControlToldInTurn(t, ApplyOptions(t, OptionsOf(p)), Shake(ApplyOptions(t, OptionsOf(p))));
    }
  }

  lemma SameControlTold(t: Tcb)
    ensures ControlTold(t, t)
  {
  }

  lemma AfterAckTells(t: Tcb, connect: bool)
    requires Wf(t)
    ensures var u := AfterAck(t, connect);
            && u.io.events == t.io.events + When(Opens(t, u), Opened) + When(t.writeEnable && Refills(t), Writeable)
            && u.readEnable == t.readEnable && u.writeEnable == (t.writeEnable && !Refills(t))
            && u.rcv == t.rcv && u.snd == t.snd
            && u.state == if t.state.ReceivedSyn? && !connect then Established else t.state
  {
    hide SndOk, CcOk, Refill, Establish, Keeps, Quiet;
    RefillTells(t);
    if t.state.ReceivedSyn? && !connect {
      EstablishTells(t);
      RefillTells(Establish(t));
    }
  }

  lemma RefillTells(t: Tcb)
    requires Wf(t)
    ensures var u := Refill(t);
            && u == t.(writeEnable := t.writeEnable && !Refills(t), io := u.io)
            && u.io.events == t.io.events + When(t.writeEnable && Refills(t), Writeable)
  {
    hide SndOk, CcOk, Quiet, Keeps;
  }

  lemma FoundIsMore(r: Rcv)
    requires r.buf.Valid()
    ensures var v := Recover(r); (v.found <==> r.buf.len < v.rcv.buf.len) && r.buf.len <= v.rcv.buf.len
    decreases |r.rlist|
  {
    if r.rlist != [] && r.rlist[0].seqno <= r.nxt {
      var e := r.rlist[0];
      var rest := r.(rlist := r.rlist[1..]);
      if e.seqno + e.len > r.nxt {
        if e.seqno + e.len - r.nxt <= r.buf.Free() {
          FoundIsMore(Advance(rest, e.seqno + e.len - r.nxt));
        }
      } else {
        FoundIsMore(rest);
      }
    }
  }

  lemma ControlIsNew(r: Rcv, at: nat, n: nat)
    requires r.buf.Valid() && n <= r.buf.Free()
    ensures var v := PlaceControl(r, at, n);
            (v.newData <==> r.buf.len < v.rcv.buf.len) && r.buf.len <= v.rcv.buf.len
  {
    hide Recover;
    FoundIsMore(Skip(r, n));
  }

  lemma NextIsNew(r: Rcv, data: seq<byte>)
    requires r.buf.Valid() && 0 < |data| <= r.buf.Free()
    ensures var v := PlaceNext(r, data); v.newData && r.buf.len < v.rcv.buf.len
  {
    hide Recover;
    FoundIsMore(Advance(r.(buf := r.buf.Put(data, 0)), |data|));
  }

  /** The source calls data new exactly when more can be read than before. */
  lemma NewIsReadable(t: Tcb, p: Packet)
    requires t.rcv.buf.Valid()
    ensures var v := ArriveAt(t, p);
            && (v.newData <==> t.rcv.buf.len < v.rcv.buf.len) && t.rcv.buf.len <= v.rcv.buf.len
            && |v.rcv.buf.slots| == |t.rcv.buf.slots|
  {
    var (at, d) := Trim(t.rcv, p.seqno, p.data);
    hide Trim, PlaceControl, PlaceNext;
    if d != [] {
      ControlIsNew(t.rcv, at, |d|);
      NextIsNew(t.rcv, d);
    }
  }

  lemma SendsTheSame(t: Tcb, u: Tcb)
    requires Sends(t, u)
    ensures u.rcv == t.rcv && u.snd.buf == t.snd.buf && u.state == t.state && u.halted == t.halted
  {
  }

  lemma PayloadTells(t: Tcb, p: Packet, now: nat, w: Writer)
    requires Wf(t)
    ensures var u := Payload(t, p, now, w).1;
            && u.state == t.state && u.snd.buf == t.snd.buf && |u.rcv.buf.slots| == |t.rcv.buf.slots|
            && u.writeEnable == t.writeEnable
            && (!u.halted ==>
                  var more := t.readEnable && t.rcv.buf.len < u.rcv.buf.len;
                  && t.rcv.buf.len <= u.rcv.buf.len
                  && u.io.events == t.io.events + When(more, Readable) && u.readEnable == (t.readEnable && !more))
  {
    var v := ArriveAt(t, p);
    var x := WithRcv(t, v.rcv, v.halted);
    AlwaysTaken(t, p);
    NewIsReadable(t, p);
    hide AttemptSend, ArriveAt, SndOk, CcOk, ReplyFlags, Stamps, Acknowledging, Keeps, Sends, Quiet;
    var flags := if v.recovered then ImmediateAck else ReplyFlags(t, p);
    SendingStamps(x, flags, now, w);
    SendsTheSame(x, AttemptSend(x, flags, now, w));
  }

  /** A packet that is looked at tells, in this order: that the connection has opened; that there is
      room to write, if this was waited for and too little is buffered; and that there is more to
      read, if that was waited for. It ends the connection only by a retransmission that fails. */
  ghost predicate PacketTold(t: Tcb, u: Tcb) {
    if u.state.Closed? then
      || u.io.events == t.io.events + [ClosedWith(ConnectionAborted)]
      || (!t.state.Established? && u.io.events == t.io.events + [Opened] + [ClosedWith(ConnectionAborted)])
    else
      var more := t.readEnable && t.rcv.buf.len < u.rcv.buf.len;
      && u.writeEnable == (t.writeEnable && !Refills(u)) && (t.state.Established? ==> u.state.Established?)
      && (!u.halted ==>
            && u.io.events == t.io.events + When(Opens(t, u), Opened) + When(t.writeEnable && Refills(u), Writeable)
                              + When(more, Readable)
            && u.readEnable == (t.readEnable && !more) && t.rcv.buf.len <= u.rcv.buf.len)
  }

  lemma RestTells(t: Tcb, p: Packet, connect: bool, now: nat, w: Writer)
    requires Wf(t) && !t.state.Closed?
    ensures PacketTold(t, Rest(t, p, connect, now, w).1)
  {
    hide AfterAck, Payload, SndOk, CcOk, Quiet, Armed, Steady, Roomy;
    AfterAckTells(t, connect);
    PayloadTells(AfterAck(t, connect), p, now, w);
  }

  lemma HearingTells(t: Tcb, p: Packet, now: nat)
    requires Wf(t)
    ensures ControlTold(t, Hearing(t, p, now))
    ensures var c := Control(Received(t, now), p);
            c.Accept? && !c.connect ==> Hearing(t, p, now).state == t.state
  {
    hide Control, SndOk, CcOk, Quiet, Keeps;
    ControlTells(Received(t, now), p);
  }

  /** What an endpoint tells that has heard `h` of a packet, and then done the rest. */
  lemma PacketToldInTurn(t: Tcb, h: Tcb, x: Tcb, u: Tcb)
    requires ControlTold(t, h) && Mutes(h, x) && !x.state.Closed? && !h.state.Closed? && x.rcv == h.rcv
    requires PacketTold(x, u) && !u.state.Closed?
    ensures PacketTold(t, u)
  {
  }

  lemma PacketEnds(t: Tcb, h: Tcb, u: Tcb)
    requires ControlTold(t, h) && Mutes(h, u) && u.state.Closed? && !h.state.Closed?
    ensures PacketTold(t, u)
  {
  }

  lemma HeardTells(t: Tcb, p: Packet, now: nat, w: Writer)
    requires Wf(t) && Hears(t, p, now)
    ensures PacketTold(t, Process(t, p, now, w).1)
  {
    hide Process, Control, Acknowledge, Rest, Hearing, Hears, ControlTold, PacketTold, Mutes, Wf;
    HeardIsOpen(t, p, now);
    ProcessIs(t, p, now, w);
    HearingTells(t, p, now);
    var h, c := Hearing(t, p, now), Control(Received(t, now), p);
    StaysOpen(t, h);
    AcknowledgeMutes(h, p, now, w);
    var r := Acknowledge(h, p, now, w);
    if r.Fine? {
      RestTells(r.t, p, c.connect, now, w);
      RestStays(r.t, p, c.connect, now, w);
      PacketToldInTurn(t, h, r.t, Process(t, p, now, w).1);
    } else {
      PacketEnds(t, h, r.t);
    }
  }

  lemma StaysOpen(t: Tcb, u: Tcb)
    requires ControlTold(t, u) && !t.state.Closed?
    ensures !u.state.Closed?
  {
  }

  lemma RestStays(t: Tcb, p: Packet, connect: bool, now: nat, w: Writer)
    requires Wf(t) && !t.state.Closed?
    ensures !Rest(t, p, connect, now, w).1.state.Closed?
  {
    hide AfterAck, Payload, SndOk, CcOk, Quiet, Armed, Steady, Roomy;
    AfterAckTells(t, connect);
    PayloadTells(AfterAck(t, connect), p, now, w);
  }

  /** A packet that is not looked at tells nothing, unless it resets the connection. */
  ghost predicate UnheardTold(t: Tcb, u: Tcb, p: Packet) {
    if !t.halted && p.conv == t.conv && !t.state.Closed? && HasRst(p.flags)
    then
      && u.state.Closed? && u.io.events == t.io.events + [ClosedWith(ConnectionReset)]
      && u.readEnable == t.readEnable && u.writeEnable == t.writeEnable
    else Silent(t, u) && u.state == t.state && (u.halted || (u.snd.buf == t.snd.buf && u.rcv == t.rcv))
  }

  lemma RefusedTells(t: Tcb, p: Packet)
    requires Wf(t) && Control(t, p).Refuse?
    ensures var u := Control(t, p).t;
            Silent(t, u) && u.state == t.state && (u.halted || u == t)
  {
    hide OptionsOf, Reverted, Shake, Segs, CcOk, Quiet, Armed, Steady, Roomy;
    if HasCtl(p.flags) && p.data != [] && p.data[0] == CTL_CONNECT {
      RevertSilent(t);
      var o := OptionsOf(p);
      if o.scale != [] {
        RevertSilent(t.(snd := t.snd.(scale := o.scale[0])));
      }
    }
  }

  lemma RevertSilent(t: Tcb)
    requires Wf(t)
    ensures Silent(t, Reverted(t))
  {
    hide SndOk, CcOk;
  }

  lemma UnheardTells(t: Tcb, p: Packet, now: nat, w: Writer)
    requires Wf(t) && !Hears(t, p, now)
    ensures UnheardTold(t, Process(t, p, now, w).1, p)
  {
    hide Answer, Renegotiates, SndOk, CcOk, Control, Keeps, Quiet;
    if Control(Received(t, now), p).Refuse? {
      RefusedTells(Received(t, now), p);
    }
  }

  // ---- Any run ----

  function Count(es: seq<Event>, begins: bool): nat {
    if es == [] then 0
    else
      var e := es[|es| - 1];
      Count(es[..|es| - 1], begins) + if (if begins then e.Opened? else e.ClosedWith?) then 1 else 0
  }

  /** The application has been told of the state: once that the connection has opened if it is open,
      once that it has ended if it has, and not before. */
  ghost predicate Told(t: Tcb) {
    && Count(t.io.events, false) == (if t.state.Closed? then 1 else 0)
    && (!t.state.Closed? ==> Count(t.io.events, true) == if t.state.Established? then 1 else 0)
    && Count(t.io.events, true) <= 1
  }

  /** Whoever waits to read has read everything; whoever waits to write has filled the buffer, or as
      much as the source wants. */
  ghost predicate Waiting(t: Tcb) {
    !t.halted && !t.state.Closed? ==>
      && (t.readEnable ==> t.rcv.buf.len == 0)
      && (t.writeEnable ==> !Refills(t) || t.snd.buf.len >= |t.snd.buf.slots|)
  }

  lemma CountsMore(es: seq<Event>, e: Event)
    ensures Count(es + [e], true) == Count(es, true) + if e.Opened? then 1 else 0
    ensures Count(es + [e], false) == Count(es, false) + if e.ClosedWith? then 1 else 0
  {
    assert (es + [e])[..|es + [e]| - 1] == es;
  }

  lemma CountsWhen(es: seq<Event>, c: bool, e: Event)
    ensures Count(es + When(c, e), true) == Count(es, true) + if c && e.Opened? then 1 else 0
    ensures Count(es + When(c, e), false) == Count(es, false) + if c && e.ClosedWith? then 1 else 0
  {
    if c {
      CountsMore(es, e);
    } else {
      assert es + When(c, e) == es;
    }
  }

  lemma CountsThree(es: seq<Event>, a: bool, b: bool, c: bool)
    ensures var more := es + When(a, Opened) + When(b, Writeable) + When(c, Readable);
            && Count(more, true) == Count(es, true) + (if a then 1 else 0)
            && Count(more, false) == Count(es, false)
  {
    hide Count, When;
    CountsWhen(es, a, Opened);
    CountsWhen(es + When(a, Opened), b, Writeable);
    CountsWhen(es + When(a, Opened) + When(b, Writeable), c, Readable);
  }

  lemma CountsEnd(es: seq<Event>)
    ensures var more := es + [ClosedWith(ConnectionAborted)];
            Count(more, true) == Count(es, true) && Count(more, false) == Count(es, false) + 1
    ensures var more := es + [Opened] + [ClosedWith(ConnectionAborted)];
            Count(more, true) == Count(es, true) + 1 && Count(more, false) == Count(es, false) + 1
  {
    hide Count;
    CountsMore(es, ClosedWith(ConnectionAborted));
    CountsMore(es, Opened);
    CountsMore(es + [Opened], ClosedWith(ConnectionAborted));
  }

  /** The events of a packet concern the state as it should be. */
  lemma PacketKeepsTold(t: Tcb, u: Tcb)
    requires Told(t) && !t.state.Closed? && PacketTold(t, u) && !u.halted
    ensures Told(u)
  {
    hide Count, When, Refills;
    CountsEnd(t.io.events);
    CountsThree(t.io.events, Opens(t, u), t.writeEnable && Refills(u), t.readEnable && t.rcv.buf.len < u.rcv.buf.len);
  }

  lemma PacketKeepsWaiting(t: Tcb, u: Tcb)
    requires Waiting(t) && !t.halted && !t.state.Closed? && PacketTold(t, u)
    ensures Waiting(u)
  {
  }

  /** What the application is told is right, unless an assertion has failed. */
  ghost predicate TellsRight(t: Tcb) { t.halted || (Told(t) && Waiting(t)) }

  /** Calls that tell nothing, and let nobody wait in vain. */
  ghost predicate Idles(t: Tcb, u: Tcb) {
    && u.io.events == t.io.events && u.halted == t.halted && (u.state.Closed? <==> t.state.Closed?)
    && (u.state.Established? <==> t.state.Established?) && (Waiting(t) ==> Waiting(u))
    && (t.readEnable ==> u.readEnable) && (t.writeEnable ==> u.writeEnable)
  }

  lemma IdlesRight(t: Tcb, u: Tcb)
    requires TellsRight(t) && Idles(t, u)
    ensures TellsRight(u)
  {
    hide Count, Waiting;
  }

  /** More in the send buffer, the receiving half and the flags as before. */
  lemma MoreWaits(t: Tcb, u: Tcb)
    requires u.rcv == t.rcv && |u.snd.buf.slots| == |t.snd.buf.slots| && t.snd.buf.len <= u.snd.buf.len
    requires u.readEnable == t.readEnable && u.writeEnable == t.writeEnable && u.halted == t.halted
    requires u.state.Closed? <==> t.state.Closed?
    ensures Waiting(t) ==> Waiting(u)
  {
  }

  lemma SendingIdles(t: Tcb, x: Tcb, flags: SendFlags, now: nat, w: Writer)
    requires Wf(x) && Idles(t, x)
    ensures Idles(t, AttemptSend(x, flags, now, w))
  {
    hide AttemptSend, Wf, Stamps, Waiting, Keeps, Sends;
    var u := AttemptSend(x, flags, now, w);
    SendingStamps(x, flags, now, w);
    SendsTheSame(x, u);
    MoreWaits(x, u);
  }

  lemma ConnectIdles(t: Tcb, now: nat, w: Writer)
    requires Wf(t)
    ensures Idles(t, Connect(t, now, w).1)
  {
    hide AttemptSend, Greet, Quiet, SndOk, CcOk, Waiting, Steady, Armed, Roomy;
    MoreWaits(t, t.(error := InvalidState));
    if !t.halted && t.state.Listen? {
      GreetTells(t, SentSyn);
      MoreWaits(t, Greet(t, SentSyn));
      SendingIdles(t, Greet(t, SentSyn), None, now, w);
    }
  }

  lemma SendIdles(t: Tcb, data: seq<byte>, now: nat, w: Writer)
    requires Wf(t)
    ensures Idles(t, Send(t, data, now, w).1)
  {
    hide AttemptSend, Quiet, Segs, CcOk, Steady, Armed, Roomy;
    if !t.halted && t.state.Established? && t.snd.buf.Free() != 0 {
      MoreWaits(t, Queued(t, data));
      SendingIdles(t, Queued(t, data), None, now, w);
    }
    hide Refills;
  }

  lemma TakingIdles(t: Tcb, n: nat, now: nat, w: Writer)
    requires Wf(t) && n <= t.rcv.buf.len && t.rcv.buf.len > 0
    ensures Idles(t, TakeBytes(t, n, now, w))
  {
    var x := WithRcv(t, Taken(t.rcv, n, t.cc.mss), t.halted);
    assert |x.rcv.buf.slots| == |t.rcv.buf.slots| && x.rcv.buf.len <= t.rcv.buf.len;
    hide AttemptSend, Quiet, SndOk, CcOk, Taken, Reopens, Steady, Armed, Roomy;
    SendingIdles(t, x, ImmediateAck, now, w);
  }

  lemma ReceiveIdles(t: Tcb, n: nat, now: nat, w: Writer)
    requires Wf(t)
    ensures Idles(t, Receive(t, n, now, w).2)
  {
    hide TakeBytes, Quiet, SndOk, CcOk, Steady, Armed, Roomy, Keeps;
    if !t.halted && t.state.Established? && t.rcv.buf.len != 0 {
      TakingIdles(t, |t.rcv.buf.Peek(n, 0)|, now, w);
    }
  }

  lemma SettingsIdle(t: Tcb, op: Op)
    requires Wf(t) && Advisable(op)
    ensures Idles(t, Settings(t, op))
  {
    hide SndOk, CcOk, AdjustMtu, Keeps, Steady, Armed;
  }

  lemma ClockRight(t: Tcb, now: nat, w: Writer)
    requires Wf(t) && TellsRight(t)
    ensures TellsRight(NotifyClock(t, now, w))
  {
    ClockMutes(t, now, w);
    var u := NotifyClock(t, now, w);
    assert u.rcv == t.rcv && u.halted == t.halted;
    hide NotifyClock, Wf, Quiet, Keeps, Count;
    CountsEnd(t.io.events);
  }

  lemma ResetEnds(es: seq<Event>)
    ensures var more := es + [ClosedWith(ConnectionReset)];
            Count(more, true) == Count(es, true) && Count(more, false) == Count(es, false) + 1
  {
    CountsMore(es, ClosedWith(ConnectionReset));
  }

  lemma UnheardRight(t: Tcb, p: Packet, now: nat, w: Writer)
    requires Wf(t) && !Hears(t, p, now) && TellsRight(t)
    ensures TellsRight(Process(t, p, now, w).1)
  {
    hide Process, Hears, Wf, Count;
    UnheardTells(t, p, now, w);
    if t.halted {
      UnheardHalts(t, p, now, w);
    }
    ResetEnds(t.io.events);
  }

  lemma UnheardHalts(t: Tcb, p: Packet, now: nat, w: Writer)
    requires Wf(t) && t.halted
    ensures Process(t, p, now, w).1.halted
  {
  }

  lemma HeardRight(t: Tcb, p: Packet, now: nat, w: Writer)
    requires Wf(t) && Hears(t, p, now) && TellsRight(t)
    ensures TellsRight(Process(t, p, now, w).1)
  {
    hide Process, Hears, Wf, PacketTold, Told, Waiting;
    HeardIsOpen(t, p, now);
    HeardTells(t, p, now, w);
    var u := Process(t, p, now, w).1;
    if !u.halted {
      PacketKeepsTold(t, u);
    }
    PacketKeepsWaiting(t, u);
  }

  lemma ArrivalRight(t: Tcb, op: Op)
    requires Wf(t) && op.Arrives? && TellsRight(t)
    ensures TellsRight(Then(t, op))
  {
    hide Then, Process, Hears, TellsRight, Wf;
    ThenProcesses(t, op);
    if Hears(t, op.p, op.now) {
      HeardRight(t, op.p, op.now, op.w);
    } else {
      UnheardRight(t, op.p, op.now, op.w);
    }
  }

  lemma CallRight(t: Tcb, op: Op)
    requires Wf(t) && !op.Arrives? && TellsRight(t)
    ensures TellsRight(Then(t, op))
  {
    hide Connect, Send, Receive, NotifyClock, Process, Settings, Idles, TellsRight, SndOk, CcOk;
    match op
    case DoConnect(now, w) => ConnectIdles(t, now, w); IdlesRight(t, Connect(t, now, w).1);
    case DoSend(data, now, w) => SendIdles(t, data, now, w); IdlesRight(t, Send(t, data, now, w).1);
    case DoReceive(n, now, w) => ReceiveIdles(t, n, now, w); IdlesRight(t, Receive(t, n, now, w).2);
    case DoClock(now, w) => ClockRight(t, now, w);
    case Arrives(p, now, w) =>
    case _ => if Advisable(op) { SettingsIdle(t, op); IdlesRight(t, Settings(t, op)); }
  }

  lemma {:induction false} RunTellsRight(t: Tcb, ops: seq<Op>)
    requires Wf(t) && TellsRight(t)
    ensures TellsRight(After(t, ops))
  {
    hide After, Then, TellsRight, Wf;
    if ops == [] {
      NothingCalled(t);
    } else {
      var before, last := ops[..|ops| - 1], ops[|ops| - 1];
      RunTellsRight(t, before);
      AfterLast(t, ops);
      if last.Arrives? {
        ArrivalRight(After(t, before), last);
      } else {
        CallRight(After(t, before), last);
      }
    }
  }

  lemma NothingCalled(t: Tcb)
    requires Wf(t)
    ensures After(t, []) == t
  {
    hide Then;
  }

  /** A new endpoint has told nothing; it waits to read, and nothing is there. */
  lemma NewTellsRight(conv: nat, rcvSize: nat, sndSize: nat, now: nat)
    requires 4 <= rcvSize < U32 && 4 <= sndSize
    ensures var t := NewTcb(conv, rcvSize, sndSize, now); Wf(t) && TellsRight(t)
  {
    NewTcbIsFresh(conv, rcvSize, sndSize, now);
  }

  /** Whatever is called and arrives, the application of a new endpoint is told once that the
      connection has opened, and once that it has ended, when this is so and not before. */
  lemma StateIsTold(conv: nat, rcvSize: nat, sndSize: nat, now: nat, ops: seq<Op>)
    requires 4 <= rcvSize < U32 && 4 <= sndSize
    ensures var t := NewTcb(conv, rcvSize, sndSize, now);
            && Wf(t)
            && var u := After(t, ops);
            !u.halted ==>
              && Count(u.io.events, false) == (if u.state.Closed? then 1 else 0)
              && (u.state.Established? ==> Count(u.io.events, true) == 1)
              && (!u.state.Established? && !u.state.Closed? ==> Count(u.io.events, true) == 0)
  {
    hide After, Then, Waiting, Count, Wf, NewTcb;
    NewTellsRight(conv, rcvSize, sndSize, now);
    RunTellsRight(NewTcb(conv, rcvSize, sndSize, now), ops);
  }

  /** No wake-up is lost: in any run of a new endpoint, while the connection lives, an application that
      found nothing to read and has not been told since finds nothing still; and one that found no
      room and has not been told since would find the buffer full, or filled as far as the source
      wants. */
  lemma NoWakeUpIsLost(conv: nat, rcvSize: nat, sndSize: nat, now: nat, ops: seq<Op>)
    requires 4 <= rcvSize < U32 && 4 <= sndSize
    ensures var t := NewTcb(conv, rcvSize, sndSize, now);
            && Wf(t)
            && var u := After(t, ops);
            !u.halted && !u.state.Closed? ==>
              && (u.readEnable ==> u.rcv.buf.len == 0)
              && (u.writeEnable ==>
                    || u.snd.buf.len >= (|u.snd.buf.slots| + |u.rcv.buf.slots|) / 2
                    || u.snd.buf.len >= |u.snd.buf.slots|)
  {
    hide After, Then, Told, Wf, NewTcb;
    NewTellsRight(conv, rcvSize, sndSize, now);
    RunTellsRight(NewTcb(conv, rcvSize, sndSize, now), ops);
  }

  // ---- Who waits is woken ----

  /** The application has been told, or waits still. */
  ghost predicate Wakes(t: Tcb, u: Tcb) {
    !u.halted ==>
      && (t.readEnable ==> u.readEnable || Times(t, Readable) < Times(u, Readable))
      && (t.writeEnable ==> u.writeEnable || Times(t, Writeable) < Times(u, Writeable))
      && Times(t, Readable) <= Times(u, Readable) && Times(t, Writeable) <= Times(u, Writeable)
  }

  /** How often the application has been told `e`. */
  function Times(t: Tcb, e: Event): nat { multiset(t.io.events)[e] }

  lemma WakesInTurn(t: Tcb, u: Tcb, v: Tcb)
    requires Wakes(t, u) && Wakes(u, v) && (u.halted ==> v.halted)
    ensures Wakes(t, v)
  {
  }

  lemma IdlesWakes(t: Tcb, u: Tcb)
    requires Idles(t, u)
    ensures Wakes(t, u) && u.halted == t.halted
  {
    hide Waiting;
  }

  lemma PacketWakes(t: Tcb, u: Tcb)
    requires PacketTold(t, u) && !u.state.Closed?
    ensures Wakes(t, u)
  {
    hide Refills;
  }

  /** A call, unless it ends the connection. */
  ghost predicate WakesOpen(t: Tcb, u: Tcb) { u.state.Closed? || (Wakes(t, u) && (t.halted ==> u.halted)) }

  lemma ClockWakes(t: Tcb, now: nat, w: Writer)
    requires Wf(t)
    ensures WakesOpen(t, NotifyClock(t, now, w))
  {
    ClockMutes(t, now, w);
    assert NotifyClock(t, now, w).halted == t.halted;
    hide NotifyClock, Wf, Quiet, Keeps;
  }

  lemma ArrivalWakes(t: Tcb, op: Op)
    requires Wf(t) && op.Arrives?
    ensures WakesOpen(t, Then(t, op))
  {
    hide Then, Process, Hears, PacketTold, Wakes, Wf;
    ThenProcesses(t, op);
    if Hears(t, op.p, op.now) {
      HeardIsOpen(t, op.p, op.now);
      HeardTells(t, op.p, op.now, op.w);
      if !Then(t, op).state.Closed? {
        PacketWakes(t, Then(t, op));
      }
    } else {
      UnheardTells(t, op.p, op.now, op.w);
      SilentWakes(t, Then(t, op));
      if t.halted {
        UnheardHalts(t, op.p, op.now, op.w);
      }
    }
  }

  lemma SilentWakes(t: Tcb, u: Tcb)
    ensures Silent(t, u) ==> Wakes(t, u)
  {
  }

  lemma CallWakes(t: Tcb, op: Op)
    requires Wf(t) && !op.Arrives?
    ensures WakesOpen(t, Then(t, op))
  {
    hide Connect, Send, Receive, NotifyClock, Process, Settings, Idles, Wakes, SndOk, CcOk;
    match op
    case DoConnect(now, w) => ConnectIdles(t, now, w); IdlesWakes(t, Connect(t, now, w).1);
    case DoSend(data, now, w) => SendIdles(t, data, now, w); IdlesWakes(t, Send(t, data, now, w).1);
    case DoReceive(n, now, w) => ReceiveIdles(t, n, now, w); IdlesWakes(t, Receive(t, n, now, w).2);
    case DoClock(now, w) => ClockWakes(t, now, w);
    case Arrives(p, now, w) =>
    case _ =>
      SilentWakes(t, t);
      if Advisable(op) { SettingsIdle(t, op); IdlesWakes(t, Settings(t, op)); }
  }

  lemma {:induction false} RunWakes(t: Tcb, ops: seq<Op>)
    requires Wf(t)
    ensures WakesOpen(t, After(t, ops))
  {
    hide After, Then, Wakes, Wf;
    if ops == [] {
      NothingCalled(t);
      SilentWakes(t, t);
    } else {
      var before, last := ops[..|ops| - 1], ops[|ops| - 1];
      RunWakes(t, before);
      AfterLast(t, ops);
      var u := After(t, before);
      if u.state.Closed? {
        ClosedHearsNothing(u, last);
        ThenSameAcks(u, last);
      } else {
        if last.Arrives? {
          ArrivalWakes(u, last);
        } else {
          CallWakes(u, last);
        }
        if !Then(u, last).state.Closed? {
          WakesInTurn(t, u, Then(u, last));
        }
      }
    }
  }

  /** What `Receive` returns: an error unless the connection is open, as many of the first bytes as
      there are and are wanted, or that it would block, after which the application waits. */
  lemma WouldBlockToRead(t: Tcb, n: nat, now: nat, w: Writer)
    requires Wf(t)
    ensures var (k, bytes, u) := Receive(t, n, now, w);
            if t.halted || !t.state.Established? then k == IO_ERROR && bytes == [] && u.io == t.io
            else if t.rcv.buf.len == 0 then k == IO_WOULD_BLOCK && bytes == [] && u.readEnable && u.io == t.io
            else k == |bytes| == Min(n, t.rcv.buf.len) && bytes <= t.rcv.buf.Data()
  {
    hide TakeBytes, SndOk, CcOk;
  }

  lemma WouldBlockToWrite(t: Tcb, data: seq<byte>, now: nat, w: Writer)
    requires Wf(t)
    ensures var (k, u) := Send(t, data, now, w);
            if t.halted || !t.state.Established? then k == IO_ERROR && u.io == t.io
            else if t.snd.buf.Free() == 0 then k == IO_WOULD_BLOCK && u.writeEnable && u.io == t.io
            else k == Min(|data|, t.snd.buf.Free())
  {
    hide Pushed, Segs, CcOk;
  }

  /** Whoever finds nothing to read is told when there is something: in any run after a call of
      `Receive` that would block, while the connection lives. */
  lemma ReadersAreWoken(t: Tcb, n: nat, now: nat, w: Writer, ops: seq<Op>)
    requires Wf(t) && TellsRight(t)
    ensures var (k, bytes, x) := Receive(t, n, now, w);
            var u := After(x, ops);
            k == IO_WOULD_BLOCK && !u.halted && !u.state.Closed? && u.rcv.buf.len > 0 ==>
              Times(t, Readable) < Times(u, Readable)
  {
    hide Receive, After, Then, Told, Idles, Wf;
    var x := Receive(t, n, now, w).2;
    WouldBlockToRead(t, n, now, w);
    ReceiveIdles(t, n, now, w);
    IdlesRight(t, x);
    RunTellsRight(x, ops);
    RunWakes(x, ops);
  }

  /** And whoever finds no room is told when the buffer runs low. */
  lemma WritersAreWoken(t: Tcb, data: seq<byte>, now: nat, w: Writer, ops: seq<Op>)
    requires Wf(t) && TellsRight(t)
    ensures var (k, x) := Send(t, data, now, w);
            var u := After(x, ops);
            k == IO_WOULD_BLOCK && !u.halted && !u.state.Closed? && u.snd.buf.len < |u.snd.buf.slots|
            && u.snd.buf.len < (|u.snd.buf.slots| + |u.rcv.buf.slots|) / 2 ==>
              Times(t, Writeable) < Times(u, Writeable)
  {
    hide Send, After, Then, Told, Idles, Wf;
    var x := Send(t, data, now, w).1;
    WouldBlockToWrite(t, data, now, w);
    SendIdles(t, data, now, w);
    IdlesRight(t, x);
    RunTellsRight(x, ops);
    RunWakes(x, ops);
  }
}
