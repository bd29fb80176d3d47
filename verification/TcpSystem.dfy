/** Two PseudoTcp endpoints and a network that loses, repeats, delays and reorders packets.

    Every packet the network has taken may arrive at the peer at any later time, any number of
    times, or never. The applications connect, send, receive, close, change the settings and
    call the clock as they like, and each write to the network may be refused. */
module TcpSystem {
  import opened Numbers
  import opened FifoBuffers
  import opened TcpSegments
  import opened TcpTypes
  import opened TcpSender
  import opened TcpReceiver
  import opened TcpEndpoint
  import opened TcpLink
  import opened TcpReassembly
  import opened TcpDelivery

  /** Both directions between `x` and `y`: streams `sx` and `sy` queued, bytes `gx` and `gy` got. */
  ghost predicate Coupled(x: Tcb, y: Tcb, sx: seq<byte>, gx: seq<byte>, sy: seq<byte>, gy: seq<byte>) {
    && Wf(x) && !x.halted && x.conv == y.conv
    && Link(x, y, sx, gy)
    && Link(y, x, sy, gx)
  }

  // ---- Changes that concern neither direction ----

  lemma SameBothWays(x: Tcb, u: Tcb, y: Tcb, sx: seq<byte>, gx: seq<byte>, sy: seq<byte>, gy: seq<byte>)
    requires Coupled(x, y, sx, gx, sy, gy) && Wf(u)
    requires Quiet(x, u) && u.snd == x.snd && u.io.out == x.io.out && Started(u, sx)
    ensures Coupled(u, y, sx, gx, sy, gy)
  {
    hide PacketsOk, AcksOk, Ranges, Content, SenderOk, Flow;
    SameLink(x, u, y, sx, gy);
    QuietKeepsLink(y, x, u, sy, gx);
  }

  lemma SentBothWays(x: Tcb, u: Tcb, y: Tcb, sx: seq<byte>, su: seq<byte>, gx: seq<byte>, sy: seq<byte>, gy: seq<byte>)
    requires Coupled(x, y, sx, gx, sy, gy) && Wf(u)
    requires Quiet(x, u) && Link(u, y, su, gy)
    ensures Coupled(u, y, su, gx, sy, gy)
  {
    hide PacketsOk, AcksOk, Ranges, Content, SenderOk, Flow;
    QuietKeepsLink(y, x, u, sy, gx);
  }

  // ---- A packet of the peer arrives ----

  /** The connect message of a peer that scales its window carries its scale. */
  lemma ConnectOptions(y: Tcb, p: Packet)
    requires y.supportScale && p.data == ConnectMessage(y)
    ensures p.data[0] == CTL_CONNECT && OptionsOf(p) == Options([y.rcv.scale % 256], true, false)
  {
    var d := p.data[1..];
    assert d == [TCP_OPT_WND_SCALE, 1, y.rcv.scale % 256];
    var rest := d[2..];
    assert rest == [y.rcv.scale % 256];
    assert rest[1..] == [];
    var o := Options([], false, false);
    assert ParseOptions(rest[1..], o.(offered := true, scale := [rest[0]])) == o.(offered := true, scale := [rest[0]]);
  }

  lemma ScaleKeepsLink(x: Tcb, y: Tcb, sx: seq<byte>, gy: seq<byte>)
    requires Link(x, y, sx, gy)
    ensures Link(x.(snd := x.snd.(scale := y.rcv.scale)), y, sx, gy)
  {
    var u := x.(snd := x.snd.(scale := y.rcv.scale));
    assert Grows(x.snd, u.snd);
    GrownPackets(x.io.out, x.conv, x.snd, u.snd, sx, sx);
    GrownLink(x, u, y, sx, sx, gy);
  }

  lemma ShakeKeepsCoupled(x: Tcb, y: Tcb, sx: seq<byte>, gx: seq<byte>, sy: seq<byte>, gy: seq<byte>)
    requires Coupled(x, y, sx, gx, sy, gy)
    ensures x.state.Listen? ==> sx == []
    ensures Coupled(Shake(x), y, if x.state.Listen? then ConnectMessage(x) else sx, gx, sy, gy)
  {
    hide PacketsOk, AcksOk, Ranges, Content, Flow, Greet, Establish;
    var u := Shake(x);
    if x.state.Listen? {
      QueueConnectKeepsLink(x, y, sx, gy, ReceivedSyn);
      SentBothWays(x, u, y, sx, ConnectMessage(x), gx, sy, gy);
    } else {
      SameBothWays(x, u, y, sx, gx, sy, gy);
    }
  }

  /** The stream of `x` after a packet has been looked at for control data. */
  function Begun(x: Tcb, sx: seq<byte>, p: Packet): seq<byte> {
    if x.state.Listen? && HasCtl(p.flags) then ConnectMessage(x) else sx
  }

  /** A control packet of `y` is its connect message, and `x` learns the window scale from it. */
  lemma ControlIsConnect(y: Tcb, x: Tcb, sy: seq<byte>, gx: seq<byte>, p: Packet)
    requires Link(y, x, sy, gx) && Wf(x) && p in y.io.out && HasCtl(p.flags) && y.rcv.scale < 256
    ensures p.data != [] && p.data[0] == CTL_CONNECT && !Renegotiates(x, p)
    ensures ApplyOptions(x, OptionsOf(p)) == x.(snd := x.snd.(scale := y.rcv.scale))
  {
    assert PacketOk(p, y.conv, y.snd, sy);
    assert p.data == sy[..CONNECT];
    ConnectOptions(y, p);
  }

  lemma ScaleKeepsCoupled(x: Tcb, y: Tcb, sx: seq<byte>, gx: seq<byte>, sy: seq<byte>, gy: seq<byte>)
    requires Coupled(x, y, sx, gx, sy, gy)
    ensures Coupled(x.(snd := x.snd.(scale := y.rcv.scale)), y, sx, gx, sy, gy)
  {
    hide PacketsOk, AcksOk, Ranges, Content, SenderOk, Flow;
    ScaleKeepsLink(x, y, sx, gy);
    SentBothWays(x, x.(snd := x.snd.(scale := y.rcv.scale)), y, sx, sx, gx, sy, gy);
  }

  lemma ControlKeepsCoupled(x: Tcb, y: Tcb, sx: seq<byte>, gx: seq<byte>, sy: seq<byte>, gy: seq<byte>, p: Packet)
    requires Coupled(x, y, sx, gx, sy, gy) && p in y.io.out
    ensures x.state.Listen? ==> sx == []
    ensures !Renegotiates(x, p)
    ensures var c := Control(x, p);
            c.Accept? && c.t.rcv == x.rcv && Coupled(c.t, y, Begun(x, sx, p), gx, sy, gy)
  {
    hide PacketsOk, AcksOk, Ranges, Content, SenderOk, Shake, ApplyOptions, ParseOptions;
    if HasCtl(p.flags) {
      ControlIsConnect(y, x, sy, gx, p);
      ScaleKeepsCoupled(x, y, sx, gx, sy, gy);
      ShakeKeepsCoupled(x.(snd := x.snd.(scale := y.rcv.scale)), y, sx, gx, sy, gy);
    }
  }

  lemma RetransmitKeepsLink(x: Tcb, y: Tcb, sx: seq<byte>, gy: seq<byte>, now: nat, w: Writer)
    requires Wf(x) && Link(x, y, sx, gy) && x.snd.una < x.snd.nxt
    ensures Link(Retransmit(x, now, w).t, y, sx, gy)
  {
    hide PacketsOk, AcksOk, Ranges, Content, SenderOk, Flow, Transmit;
    FrontInFlight(x.snd.slist, x.snd.una, x.snd.nxt, x.snd.una + x.snd.buf.len);
    TransmitKeepsLink(x, y, sx, gy, 0, now, w);
    var (ok, u) := Transmit(x, 0, now, w);
    SameLink(u, Retransmit(x, now, w).t, y, sx, gy);
  }

  lemma ProgressKeepsLink(x: Tcb, y: Tcb, sx: seq<byte>, gy: seq<byte>, n: nat, now: nat, w: Writer)
    requires Wf(x) && Link(x, y, sx, gy)
    ensures Link(Progress(x, n, now, w).t, y, sx, gy)
  {
    hide PacketsOk, AcksOk, Ranges, Content, SenderOk, Flow, Retransmit;
    var u := Progress(x, n, now, w).t;
    if x.cc.dupAcks >= 3 && x.snd.una < x.cc.recover {
      RetransmitKeepsLink(x, y, sx, gy, now, w);
      SameLink(Retransmit(x, now, w).t, u, y, sx, gy);
    } else {
      SameLink(x, u, y, sx, gy);
    }
  }

  lemma NewAckKeepsLink(x: Tcb, y: Tcb, sx: seq<byte>, gy: seq<byte>, p: Packet, now: nat, w: Writer)
    requires Wf(x) && Link(x, y, sx, gy) && AckOk(p, x.snd, y.rcv) && x.snd.una < p.ack <= x.snd.nxt
    ensures Link(NewAck(x, p, now, w).t, y, sx, gy)
  {
    hide PacketsOk, AcksOk, Ranges, Content, SenderOk, Flow, Progress, AckBytes;
    var x1 := x.(tm := EstimateFrom(x.tm, p, now));
    SameLink(x, x1, y, sx, gy);
    AckBytesKeepsLink(x1, y, sx, gy, p, now);
    ProgressKeepsLink(AckBytes(x1, p, now), y, sx, gy, p.ack - x.snd.una, now, w);
  }

  lemma CountDuplicateKeepsLink(x: Tcb, y: Tcb, sx: seq<byte>, gy: seq<byte>, now: nat, w: Writer)
    requires Wf(x) && Link(x, y, sx, gy) && x.snd.una != x.snd.nxt
    ensures Link(CountDuplicate(x, now, w).t, y, sx, gy)
  {
    hide PacketsOk, AcksOk, Ranges, Content, SenderOk, Flow, Retransmit;
    EndIsLast(x.snd.slist, x.snd.una, x.snd.nxt, x.snd.una + x.snd.buf.len);
    var u := CountDuplicate(x, now, w).t;
    if x.cc.dupAcks == 3 {
      RetransmitKeepsLink(x, y, sx, gy, now, w);
      SameLink(Retransmit(x, now, w).t, u, y, sx, gy);
    } else {
      SameLink(x, u, y, sx, gy);
    }
  }

  lemma RepeatedKeepsLink(x: Tcb, y: Tcb, sx: seq<byte>, gy: seq<byte>, bare: bool, now: nat, w: Writer)
    requires Wf(x) && Link(x, y, sx, gy)
    ensures Link(Repeated(x, bare, now, w).t, y, sx, gy)
  {
    hide PacketsOk, AcksOk, Ranges, Content, SenderOk, Flow, CountDuplicate;
    if bare && x.snd.una != x.snd.nxt {
      var x1 := x.(cc := x.cc.(dupAcks := (x.cc.dupAcks + 1) % 256));
      SameLink(x, x1, y, sx, gy);
      CountDuplicateKeepsLink(x1, y, sx, gy, now, w);
    } else {
      SameLink(x, Repeated(x, bare, now, w).t, y, sx, gy);
    }
  }

  lemma DuplicateAckKeepsLink(x: Tcb, y: Tcb, sx: seq<byte>, gy: seq<byte>, p: Packet, now: nat, w: Writer)
    requires Wf(x) && Link(x, y, sx, gy) && AckOk(p, x.snd, y.rcv) && p.ack == x.snd.una
    ensures Link(DuplicateAck(x, p, now, w).t, y, sx, gy)
  {
    NewWindowKeepsLink(x, y, sx, gy, p);
    RepeatedKeepsLink(x.(snd := x.snd.(wnd := WindowOf(p, x.snd.scale))), y, sx, gy, p.data == [], now, w);
  }

  lemma AcknowledgeKeepsCoupled(x: Tcb, y: Tcb, sx: seq<byte>, gx: seq<byte>, sy: seq<byte>, gy: seq<byte>,
                                p: Packet, now: nat, w: Writer)
    requires Coupled(x, y, sx, gx, sy, gy) && p in y.io.out
    ensures Coupled(Acknowledge(x, p, now, w).t, y, sx, gx, sy, gy)
  {
    assert AckOk(p, x.snd, y.rcv);
    if x.snd.una < p.ack <= x.snd.nxt {
      NewAckKeepsLink(x, y, sx, gy, p, now, w);
    } else if p.ack == x.snd.una {
      DuplicateAckKeepsLink(x, y, sx, gy, p, now, w);
    }
    SentBothWays(x, Acknowledge(x, p, now, w).t, y, sx, sx, gx, sy, gy);
  }

  lemma ForwardKeepsAcks(out: seq<Packet>, s: Snd, r: Rcv, q: Rcv)
    requires AcksOk(out, s, r) && Forward(r, q)
    ensures AcksOk(out, s, q)
  {
    forall k | 0 <= k < |out| ensures AckOk(out[k], s, q) {
      assert AckOk(out[k], s, r);
    }
  }

  /** Another receiving half that fits the stream of `y`. */
  lemma NewRcvKeepsCoupled(x: Tcb, y: Tcb, sx: seq<byte>, gx: seq<byte>, sy: seq<byte>, gy: seq<byte>,
                           q: Rcv, got: seq<byte>)
    requires Coupled(x, y, sx, gx, sy, gy) && q.buf.Valid()
    requires Flow(y.snd, q) && Ranges(y.snd, q) && Forward(x.rcv, q)
    requires x.shutdown.NoShutdown? ==> Content(q, sy, got)
    ensures Coupled(x.(rcv := q), y, sx, got, sy, gy)
  {
    hide PacketsOk, Flow, Ranges, Content, SenderOk, SndOk, CcOk;
    ForwardKeepsAcks(x.io.out, y.snd, x.rcv, q);
    SameLink(x, x.(rcv := q), y, sx, gy);
  }

  lemma ArrivalKeepsCoupled(x: Tcb, y: Tcb, sx: seq<byte>, gx: seq<byte>, sy: seq<byte>, gy: seq<byte>, p: Packet)
    requires Coupled(x, y, sx, gx, sy, gy) && p in y.io.out
    ensures var v := ArriveAt(x, p);
            v.taken && !v.halted && Forward(x.rcv, v.rcv) && Coupled(x.(rcv := v.rcv), y, sx, gx, sy, gy)
  {
    assert PacketOk(p, y.conv, y.snd, sy);
    var ignore := HasCtl(p.flags) || !x.shutdown.NoShutdown?;
    var v := ArriveAt(x, p);
    ArriveKeepsFlow(y.snd, x.rcv, p, y.conv, sy, ignore);
    if x.shutdown.NoShutdown? {
      ArriveKeepsContent(y.snd, x.rcv, p, y.conv, sy, gx);
    }
    hide PacketOk, PacketsOk, Arrive, Fits, Flow, Ranges, Content, Forward, SenderOk, SndOk, CcOk, AcksOk;
    NewRcvKeepsCoupled(x, y, sx, gx, sy, gy, v.rcv, gx);
  }

  lemma SendingKeepsCoupled(x: Tcb, y: Tcb, sx: seq<byte>, gx: seq<byte>, sy: seq<byte>, gy: seq<byte>,
                            flags: SendFlags, now: nat, w: Writer)
    requires Coupled(x, y, sx, gx, sy, gy)
    ensures Coupled(AttemptSend(x, flags, now, w), y, sx, gx, sy, gy)
  {
    hide PacketsOk, AcksOk, Ranges, Content, SenderOk, Flow, AttemptSend;
    AttemptSendKeepsLink(x, y, sx, gy, flags, now, w);
    SentBothWays(x, AttemptSend(x, flags, now, w), y, sx, sx, gx, sy, gy);
  }

  lemma PayloadKeepsCoupled(x: Tcb, y: Tcb, sx: seq<byte>, gx: seq<byte>, sy: seq<byte>, gy: seq<byte>,
                            p: Packet, now: nat, w: Writer)
    requires Coupled(x, y, sx, gx, sy, gy) && p in y.io.out
    ensures Coupled(Payload(x, p, now, w).1, y, sx, gx, sy, gy)
    ensures Forward(x.rcv, Payload(x, p, now, w).1.rcv)
  {
    hide PacketsOk, AcksOk, Ranges, Content, SenderOk, Flow, AttemptSend, Arrive;
    var v := ArriveAt(x, p);
    ArrivalKeepsCoupled(x, y, sx, gx, sy, gy, p);
    var x1 := x.(rcv := v.rcv);
    var flags := if v.recovered then ImmediateAck else ReplyFlags(x, p);
    var x2 := AttemptSend(x1, flags, now, w);
    SendingKeepsCoupled(x1, y, sx, gx, sy, gy, flags, now, w);
    SameBothWays(x2, Delivered(x2, v.newData), y, sx, gx, sy, gy);
  }

  lemma AfterAckKeepsCoupled(x: Tcb, y: Tcb, sx: seq<byte>, gx: seq<byte>, sy: seq<byte>, gy: seq<byte>, connect: bool)
    requires Coupled(x, y, sx, gx, sy, gy)
    ensures Coupled(AfterAck(x, connect), y, sx, gx, sy, gy)
  {
    hide PacketsOk, AcksOk, Ranges, Content, SenderOk, Flow;
    SameBothWays(x, AfterAck(x, connect), y, sx, gx, sy, gy);
  }

  lemma StampKeepsCoupled(x: Tcb, y: Tcb, sx: seq<byte>, gx: seq<byte>, sy: seq<byte>, gy: seq<byte>, p: Packet)
    requires Coupled(x, y, sx, gx, sy, gy)
    ensures Coupled(Stamp(x, p), y, sx, gx, sy, gy)
  {
    hide PacketsOk, AcksOk, Ranges, Content, SenderOk, Flow;
    SameBothWays(x, Stamp(x, p), y, sx, gx, sy, gy);
  }

  lemma AnswerKeepsCoupled(x: Tcb, y: Tcb, sx: seq<byte>, gx: seq<byte>, sy: seq<byte>, gy: seq<byte>,
                           p: Packet, connect: bool, now: nat, w: Writer)
    requires Coupled(x, y, sx, gx, sy, gy) && p in y.io.out
    ensures Coupled(Answer(x, p, connect, now, w).1, y, sx, gx, sy, gy)
    ensures Forward(x.rcv, Answer(x, p, connect, now, w).1.rcv)
  {
    hide PacketsOk, AcksOk, Ranges, Content, SenderOk, Flow, Payload, Acknowledge, AfterAck;
    StampKeepsCoupled(x, y, sx, gx, sy, gy, p);
    AcknowledgeKeepsCoupled(Stamp(x, p), y, sx, gx, sy, gy, p, now, w);
    var x1 := Acknowledge(Stamp(x, p), p, now, w);
    if x1.Fine? {
      AfterAckKeepsCoupled(x1.t, y, sx, gx, sy, gy, connect);
      PayloadKeepsCoupled(AfterAck(x1.t, connect), y, sx, gx, sy, gy, p, now, w);
    }
  }

  /** Whatever packet of the peer arrives, and whenever: both directions go on. */
  lemma ProcessKeepsCoupled(x: Tcb, y: Tcb, sx: seq<byte>, gx: seq<byte>, sy: seq<byte>, gy: seq<byte>,
                            p: Packet, now: nat, w: Writer)
    requires Coupled(x, y, sx, gx, sy, gy) && p in y.io.out
    ensures x.state.Listen? ==> sx == []
    ensures !Renegotiates(x, p)
    ensures Coupled(Process(x, p, now, w).1, y, Begun(x, sx, p), gx, sy, gy)
    ensures Forward(x.rcv, Process(x, p, now, w).1.rcv)
  {
    hide AcksOk, Ranges, Content, SenderOk, Flow, Answer;
    assert PacketOk(p, y.conv, y.snd, sy);
    var x0 := Received(x, now);
    SameBothWays(x, x0, y, sx, gx, sy, gy);
    ControlKeepsCoupled(x, y, sx, gx, sy, gy, p);
    if !x.state.Closed? {
      ControlKeepsCoupled(x0, y, sx, gx, sy, gy, p);
      var c := Control(x0, p);
      AnswerKeepsCoupled(c.t, y, Begun(x, sx, p), gx, sy, gy, p, c.connect, now, w);
    }
  }

  // ---- The applications and the clock ----

  /** Leaving the state Listen by `Connect`. */
  lemma SynKeepsCoupled(x: Tcb, y: Tcb, sx: seq<byte>, gx: seq<byte>, sy: seq<byte>, gy: seq<byte>)
    requires Coupled(x, y, sx, gx, sy, gy) && x.state.Listen?
    ensures sx == []
    ensures Coupled(Greet(x, SentSyn), y, ConnectMessage(x), gx, sy, gy)
  {
    hide PacketsOk, AcksOk, Ranges, Content, SenderOk, Flow;
    QueueConnectKeepsLink(x, y, sx, gy, SentSyn);
    SentBothWays(x, Greet(x, SentSyn), y, sx, ConnectMessage(x), gx, sy, gy);
  }

  lemma ConnectKeepsCoupled(x: Tcb, y: Tcb, sx: seq<byte>, gx: seq<byte>, sy: seq<byte>, gy: seq<byte>, now: nat,
                            w: Writer)
    requires Coupled(x, y, sx, gx, sy, gy)
    ensures x.state.Listen? ==> sx == []
    ensures Coupled(Connect(x, now, w).1, y, if x.state.Listen? then ConnectMessage(x) else sx, gx, sy, gy)
  {
    hide PacketsOk, AcksOk, Ranges, Content, SenderOk, Flow, AttemptSend, Greet;
    if x.state.Listen? {
      SynKeepsCoupled(x, y, sx, gx, sy, gy);
      SendingKeepsCoupled(Greet(x, SentSyn), y, ConnectMessage(x), gx, sy, gy, None, now, w);
    } else {
      SameBothWays(x, Connect(x, now, w).1, y, sx, gx, sy, gy);
    }
  }

  /** The bytes of `data` that `Send` accepts. */
  function Accepted(x: Tcb, data: seq<byte>): seq<byte>
    requires x.snd.buf.Valid()
  {
    if x.state.Established? && !x.halted then data[..Min(|data|, x.snd.buf.Free())] else []
  }

  lemma SendReturnsAccepted(x: Tcb, data: seq<byte>, now: nat, w: Writer)
    requires Wf(x)
    ensures var n := Send(x, data, now, w).0;
            Accepted(x, data) == if n > 0 then data[..n] else []
  {
  }

  lemma SendKeepsCoupled(x: Tcb, y: Tcb, sx: seq<byte>, gx: seq<byte>, sy: seq<byte>, gy: seq<byte>,
                         data: seq<byte>, now: nat, w: Writer)
    requires Coupled(x, y, sx, gx, sy, gy)
    ensures Coupled(Send(x, data, now, w).1, y, sx + Accepted(x, data), gx, sy, gy)
    ensures Accepted(x, data) != [] ==> sx != []
  {
    hide PacketsOk, AcksOk, Ranges, Content, SenderOk, Flow, AttemptSend;
    var u := Send(x, data, now, w).1;
    if x.state.Established? && x.snd.buf.Free() != 0 {
      QueueDataKeepsLink(x, y, sx, gy, data);
      SentBothWays(x, Queued(x, data), y, sx, sx + Accepted(x, data), gx, sy, gy);
      SendingKeepsCoupled(Queued(x, data), y, sx + Accepted(x, data), gx, sy, gy, None, now, w);
    } else {
      assert sx + Accepted(x, data) == sx;
      SameBothWays(x, u, y, sx, gx, sy, gy);
    }
  }

  lemma ReceiveKeepsCoupled(x: Tcb, y: Tcb, sx: seq<byte>, gx: seq<byte>, sy: seq<byte>, gy: seq<byte>,
                            n: nat, now: nat, w: Writer)
    requires Coupled(x, y, sx, gx, sy, gy)
    ensures var (k, bytes, u) := Receive(x, n, now, w);
            Coupled(u, y, sx, gx + bytes, sy, gy) && Forward(x.rcv, u.rcv)
  {
    hide PacketsOk, AcksOk, Ranges, Content, SenderOk, Flow, AttemptSend, Taken;
    var (k, bytes, u) := Receive(x, n, now, w);
    if !x.state.Established? || x.rcv.buf.len == 0 {
      assert gx + bytes == gx;
      SameBothWays(x, u, y, sx, gx, sy, gy);
    } else {
      TakenKeepsCoupled(x, y, sx, gx, sy, gy, |bytes|);
      SendingKeepsCoupled(x.(rcv := Taken(x.rcv, |bytes|, x.cc.mss)), y, sx, gx + bytes, sy, gy, ImmediateAck, now, w);
    }
  }

  lemma TakenKeepsCoupled(x: Tcb, y: Tcb, sx: seq<byte>, gx: seq<byte>, sy: seq<byte>, gy: seq<byte>, n: nat)
    requires Coupled(x, y, sx, gx, sy, gy) && n <= x.rcv.buf.len
    ensures Coupled(x.(rcv := Taken(x.rcv, n, x.cc.mss)), y, sx, gx + x.rcv.buf.Peek(n, 0), sy, gy)
    ensures Forward(x.rcv, Taken(x.rcv, n, x.cc.mss))
  {
    TakenKeepsFlow(y.snd, x.rcv, n, x.cc.mss);
    if x.shutdown.NoShutdown? {
      TakenKeepsContent(x.rcv, sy, gx, n, x.cc.mss);
    }
    hide PacketsOk, AcksOk, Flow, Ranges, Content, Forward, SenderOk, SndOk, CcOk, Taken;
    NewRcvKeepsCoupled(x, y, sx, gx, sy, gy, Taken(x.rcv, n, x.cc.mss), gx + x.rcv.buf.Peek(n, 0));
  }

  lemma ClockKeepsCoupled(x: Tcb, y: Tcb, sx: seq<byte>, gx: seq<byte>, sy: seq<byte>, gy: seq<byte>, now: nat,
                          w: Writer)
    requires Coupled(x, y, sx, gx, sy, gy)
    ensures Coupled(NotifyClock(x, now, w), y, sx, gx, sy, gy)
  {
    hide PacketsOk, AcksOk, Ranges, Content, SenderOk, Flow, RetransmitOnTimeout, Probe, SendAck;
    if !x.state.Closed? {
      TimeoutKeepsLink(x, y, sx, gy, now, w);
      var a := RetransmitOnTimeout(x, now, w);
      if a.Fine? {
        ProbeKeepsLink(a.t, y, sx, gy, now, w);
        var b := Probe(a.t, now, w);
        if b.Fine? {
          SendAckKeepsLink(b.t, y, sx, gy, b.t.snd.nxt, now, w);
        }
      }
    }
    SentBothWays(x, NotifyClock(x, now, w), y, sx, sx, gx, sy, gy);
  }

  lemma TimeoutKeepsLink(x: Tcb, y: Tcb, sx: seq<byte>, gy: seq<byte>, now: nat, w: Writer)
    requires Wf(x) && Link(x, y, sx, gy)
    ensures Link(RetransmitOnTimeout(x, now, w).t, y, sx, gy)
  {
    hide PacketsOk, AcksOk, Ranges, Content, SenderOk, Flow, Retransmit;
    if RetransmitDue(x, now) && x.snd.slist != [] {
      EndIsLast(x.snd.slist, x.snd.una, x.snd.nxt, x.snd.una + x.snd.buf.len);
      RetransmitKeepsLink(x, y, sx, gy, now, w);
      var r := Retransmit(x, now, w);
      SameLink(r.t, RetransmitOnTimeout(x, now, w).t, y, sx, gy);
    }
  }

  lemma ProbeKeepsLink(x: Tcb, y: Tcb, sx: seq<byte>, gy: seq<byte>, now: nat, w: Writer)
    requires Wf(x) && Link(x, y, sx, gy)
    ensures Link(Probe(x, now, w).t, y, sx, gy)
  {
    hide PacketsOk, AcksOk, Ranges, Content, SenderOk, Flow, SendAck, TimeDiff32;
    var u := Probe(x, now, w).t;
    if ProbeDue(x, now) && TimeDiff32(now, x.tm.lastrecv) < 15000 {
      SendAckKeepsLink(x, y, sx, gy, Wrap32(x.snd.nxt - 1), now, w);
      SameLink(SendAck(x, Wrap32(x.snd.nxt - 1), now, w), u, y, sx, gy);
    } else {
      SameLink(x, u, y, sx, gy);
    }
  }

  // ---- Runs ----

  datatype Op =
    | DoConnect(now: nat, w: Writer)
    | DoSend(data: seq<byte>, now: nat, w: Writer)
    | DoReceive(n: nat, now: nat, w: Writer)
    | DoClose(force: bool)
    | DoClock(now: nat, w: Writer)
    | DoMtu(mtu: nat)
    | DoNoDelay(flag: bool)
    | DoAckDelay(delay: nat)
    | Arrives(p: Packet, now: nat, w: Writer)

  /** An endpoint with the bytes its application has sent and got so far. */
  datatype Half = Half(t: Tcb, sent: seq<byte>, got: seq<byte>)

  datatype Step = OfA(op: Op) | OfB(op: Op)

  datatype Sys = Sys(a: Half, b: Half)

  ghost predicate SysWf(s: Sys) { Wf(s.a.t) && Wf(s.b.t) }

  /** An MTU leaves room for the connect message, and packets that arrive are on the network. */
  predicate Legal(peer: Tcb, op: Op) {
    && (op.DoMtu? ==> PACKET_OVERHEAD + CONNECT <= op.mtu <= MAX_PACKET)
    && (op.Arrives? ==> op.p in peer.io.out)
  }

  function Deliver(x: Half, p: Packet, now: nat, w: Writer): (u: Half)
    requires Wf(x.t)
    ensures Wf(u.t)
  {
    x.(t := Process(x.t, p, now, w).1)
  }

  /** Closing, and the options of an endpoint. */
  function Settings(t: Tcb, op: Op): (u: Tcb)
    requires Wf(t) && (op.DoMtu? ==> PACKET_OVERHEAD < op.mtu <= MAX_PACKET)
    ensures Wf(u)
  {
    match op
    case DoClose(force) => Close(t, force)
    case DoMtu(mtu) => NotifyMtu(t, mtu)
    case DoNoDelay(flag) => t.(nagling := !flag)
    case DoAckDelay(delay) => t.(ackDelay := delay)
    case _ => t
  }

  function Act(x: Half, op: Op): (u: Half)
    requires Wf(x.t) && (op.DoMtu? ==> PACKET_OVERHEAD < op.mtu <= MAX_PACKET)
    ensures Wf(u.t)
  {
    match op
    case DoConnect(now, w) => x.(t := Connect(x.t, now, w).1)
    case DoSend(data, now, w) =>
      var (n, t) := Send(x.t, data, now, w);
      x.(t := t, sent := x.sent + if n > 0 then data[..n] else [])
    case DoReceive(n, now, w) =>
      var (k, bytes, t) := Receive(x.t, n, now, w);
      x.(t := t, got := x.got + bytes)
    case DoClock(now, w) => x.(t := NotifyClock(x.t, now, w))
    case Arrives(p, now, w) => Deliver(x, p, now, w)
    case _ => x.(t := Settings(x.t, op))
  }

  function Next(s: Sys, step: Step): (u: Sys)
    requires SysWf(s)
    ensures SysWf(u)
  {
    match step
    case OfA(op) => if Legal(s.b.t, op) then s.(a := Act(s.a, op)) else s
    case OfB(op) => if Legal(s.a.t, op) then s.(b := Act(s.b, op)) else s
  }

  function Run(s: Sys, steps: seq<Step>): (u: Sys)
    requires SysWf(s)
    ensures SysWf(u)
  {
    if steps == [] then s
    else Next(Run(s, steps[..|steps| - 1]), steps[|steps| - 1])
  }

  // ---- The invariant of a run ----

  /** What an endpoint has queued: its connect message and what `Send` has accepted. */
  function Stream(h: Half): seq<byte> {
    if h.t.snd.una + h.t.snd.buf.len == 0 then [] else ConnectMessage(h.t) + h.sent
  }

  ghost predicate Coherent(x: Half, y: Half) {
    && Coupled(x.t, y.t, Stream(x), x.got, Stream(y), y.got)
    && Coupled(y.t, x.t, Stream(y), y.got, Stream(x), x.got)
    && (Stream(x) == [] ==> x.sent == [])
    && (Stream(y) == [] ==> y.sent == [])
  }

  /** `s` is nothing yet, or a connect message followed by `sent`. */
  predicate Carries(s: seq<byte>, sent: seq<byte>) {
    (s == [] && sent == []) || (CONNECT <= |s| && s[CONNECT..] == sent)
  }

  lemma StreamIs(h: Half, s: seq<byte>)
    requires SenderOk(h.t.snd, s) && Started(h.t, s) && Carries(s, h.sent)
    ensures Stream(h) == s
  {
    assert s != [] ==> s == s[..CONNECT] + s[CONNECT..];
  }

  lemma StreamCarries(h: Half)
    requires h.t.supportScale && (Stream(h) == [] ==> h.sent == [])
    ensures Carries(Stream(h), h.sent)
  {
  }

  /** A new state of `x`, coupled to `y` by the stream `s`. */
  lemma CoherentAgain(x: Half, u: Half, y: Half, s: seq<byte>)
    requires Coherent(x, y)
    requires Coupled(u.t, y.t, s, u.got, Stream(y), y.got) && Carries(s, u.sent)
    ensures Coherent(u, y)
  {
    StreamIs(u, s);
  }

  lemma BeginsWithNothingSent(x: Half, y: Half)
    requires Coherent(x, y) && x.t.state.Listen?
    ensures x.sent == [] && Carries(ConnectMessage(x.t), x.sent)
  {
  }

  lemma CarriesMore(s: seq<byte>, sent: seq<byte>, more: seq<byte>)
    requires Carries(s, sent) && (more != [] ==> s != [])
    ensures Carries(s + more, sent + more)
  {
    if s != [] {
      assert (s + more)[CONNECT..] == s[CONNECT..] + more;
    }
  }

  lemma ConnectKeepsCoherent(x: Half, y: Half, now: nat, w: Writer)
    requires Coherent(x, y)
    ensures Coherent(x.(t := Connect(x.t, now, w).1), y)
  {
    var u := x.(t := Connect(x.t, now, w).1);
    ConnectKeepsCoupled(x.t, y.t, Stream(x), x.got, Stream(y), y.got, now, w);
    if x.t.state.Listen? {
      BeginsWithNothingSent(x, y);
      CoherentAgain(x, u, y, ConnectMessage(x.t));
    } else {
      StreamCarries(x);
      CoherentAgain(x, u, y, Stream(x));
    }
  }

  lemma SendKeepsCoherent(x: Half, y: Half, data: seq<byte>, now: nat, w: Writer)
    requires Coherent(x, y)
    ensures Coherent(x.(t := Send(x.t, data, now, w).1, sent := x.sent + Accepted(x.t, data)), y)
  {
    var more := Accepted(x.t, data);
    SendKeepsCoupled(x.t, y.t, Stream(x), x.got, Stream(y), y.got, data, now, w);
    StreamCarries(x);
    CarriesMore(Stream(x), x.sent, more);
    CoherentAgain(x, x.(t := Send(x.t, data, now, w).1, sent := x.sent + more), y, Stream(x) + more);
  }

  lemma ReceiveKeepsCoherent(x: Half, y: Half, n: nat, now: nat, w: Writer)
    requires Coherent(x, y)
    ensures var (k, bytes, t) := Receive(x.t, n, now, w);
            Coherent(x.(t := t, got := x.got + bytes), y)
  {
    var (k, bytes, t) := Receive(x.t, n, now, w);
    ReceiveKeepsCoupled(x.t, y.t, Stream(x), x.got, Stream(y), y.got, n, now, w);
    StreamCarries(x);
    CoherentAgain(x, x.(t := t, got := x.got + bytes), y, Stream(x));
  }

  lemma ClockKeepsCoherent(x: Half, y: Half, now: nat, w: Writer)
    requires Coherent(x, y)
    ensures Coherent(x.(t := NotifyClock(x.t, now, w)), y)
  {
    ClockKeepsCoupled(x.t, y.t, Stream(x), x.got, Stream(y), y.got, now, w);
    StreamCarries(x);
    CoherentAgain(x, x.(t := NotifyClock(x.t, now, w)), y, Stream(x));
  }

  lemma ArrivalKeepsCoherent(x: Half, y: Half, p: Packet, now: nat, w: Writer)
    requires Coherent(x, y) && p in y.t.io.out
    ensures Coherent(Deliver(x, p, now, w), y)
  {
    ProcessKeepsCoupled(x.t, y.t, Stream(x), x.got, Stream(y), y.got, p, now, w);
    if x.t.state.Listen? {
      BeginsWithNothingSent(x, y);
    }
    StreamCarries(x);
    CoherentAgain(x, Deliver(x, p, now, w), y, Begun(x.t, Stream(x), p));
  }

  /** Settings, and closing, concern neither direction; after closing nothing is claimed of
      what arrives. */
  ghost predicate SameTraffic(t: Tcb, u: Tcb) {
    && u.snd == t.snd && u.rcv == t.rcv && u.io.out == t.io.out && u.state == t.state
    && u.conv == t.conv && u.halted == t.halted && u.supportScale == t.supportScale
    && (u.shutdown.NoShutdown? ==> t.shutdown.NoShutdown?) && (Roomy(t.cc) ==> Roomy(u.cc))
  }

  lemma SettingsKeepTraffic(t: Tcb, op: Op)
    requires Wf(t) && (op.DoMtu? ==> PACKET_OVERHEAD + CONNECT <= op.mtu <= MAX_PACKET)
    ensures SameTraffic(t, Settings(t, op))
  {
    hide CcOk, SndOk, AdjustMtu;
  }

  lemma SettingKeepsCoherent(x: Half, u: Half, y: Half)
    requires Coherent(x, y) && Wf(u.t)
    requires u.sent == x.sent && u.got == x.got && SameTraffic(x.t, u.t)
    ensures Coherent(u, y)
  {
    SameLink(x.t, u.t, y.t, Stream(x), y.got);
    StreamCarries(x);
    CoherentAgain(x, u, y, Stream(x));
  }

  lemma SettingActKeepsCoherent(x: Half, y: Half, op: Op)
    requires Coherent(x, y) && Legal(y.t, op)
    requires op.DoClose? || op.DoMtu? || op.DoNoDelay? || op.DoAckDelay?
    ensures Coherent(Act(x, op), y)
  {
    assert Wf(x.t);
    hide Coherent, Wf, Settings, SameTraffic;
    SettingsKeepTraffic(x.t, op);
    SettingKeepsCoherent(x, Act(x, op), y);
  }

  lemma SendActKeepsCoherent(x: Half, y: Half, data: seq<byte>, now: nat, w: Writer)
    requires Coherent(x, y)
    ensures Coherent(Act(x, DoSend(data, now, w)), y)
  {
    SendKeepsCoherent(x, y, data, now, w);
    SendReturnsAccepted(x.t, data, now, w);
  }

  lemma ReceiveActKeepsCoherent(x: Half, y: Half, n: nat, now: nat, w: Writer)
    requires Coherent(x, y)
    ensures Coherent(Act(x, DoReceive(n, now, w)), y)
  {
    ReceiveKeepsCoherent(x, y, n, now, w);
  }

  lemma ArrivalActKeepsCoherent(x: Half, y: Half, p: Packet, now: nat, w: Writer)
    requires Coherent(x, y) && p in y.t.io.out
    ensures Coherent(Act(x, Arrives(p, now, w)), y)
  {
    hide Process, Coherent;
    ArrivalKeepsCoherent(x, y, p, now, w);
  }

  lemma ClockActKeepsCoherent(x: Half, y: Half, now: nat, w: Writer)
    requires Coherent(x, y)
    ensures Coherent(Act(x, DoClock(now, w)), y)
  {
    ClockKeepsCoherent(x, y, now, w);
  }

  lemma ConnectActKeepsCoherent(x: Half, y: Half, now: nat, w: Writer)
    requires Coherent(x, y)
    ensures Coherent(Act(x, DoConnect(now, w)), y)
  {
    ConnectKeepsCoherent(x, y, now, w);
  }

  lemma ActKeepsCoherent(x: Half, y: Half, op: Op)
    requires Coherent(x, y) && Legal(y.t, op)
    ensures Coherent(Act(x, op), y)
  {
    if op.DoReceive? {
      ReceiveActKeepsCoherent(x, y, op.n, op.now, op.w);
    } else if op.Arrives? {
      ArrivalActKeepsCoherent(x, y, op.p, op.now, op.w);
    } else if op.DoConnect? {
      ConnectActKeepsCoherent(x, y, op.now, op.w);
    } else if op.DoClock? {
      ClockActKeepsCoherent(x, y, op.now, op.w);
    } else if op.DoSend? {
      SendActKeepsCoherent(x, y, op.data, op.now, op.w);
    } else {
      SettingActKeepsCoherent(x, y, op);
    }
  }

  lemma {:induction false} ScaleIsSmall(size: nat, n: nat)
    requires size < 0x10000 * Pow2(n)
    ensures ScaledSize(size).1 <= n
  {
    if size > 0xFFFF {
      ScaleIsSmall(size / 2, n - 1);
    }
  }

  lemma NewTcbScaled(size: nat)
    requires CONNECT <= size < U32
    ensures var (k, f) := ScaledSize(size);
            f <= 16 && CONNECT <= k && k * Pow2(f) / Pow2(f) == k
  {
    assert Pow2(4) == 16 * Pow2(0);
    assert Pow2(8) == 16 * Pow2(4);
    assert Pow2(12) == 16 * Pow2(8);
    assert Pow2(16) == 16 * Pow2(12);
    ScaleIsSmall(size, 16);
    var (k, f) := ScaledSize(size);
    ProductOverFactor(k, Pow2(f));
  }

  lemma MulApart(a: nat, b: nat, q: nat)
    ensures a < b ==> a * q + q <= b * q
  {
    if a < b {
      MulMono(a + 1, b, q);
    }
  }

  lemma ProductOverFactor(k: nat, q: nat)
    requires q > 0
    ensures k * q / q == k && k <= k * q
  {
    var m, rest := k * q / q, k * q % q;
    assert m * q + rest == k * q;
    MulApart(m, k, q);
    MulApart(k, m, q);
    MulMono(1, q, k);
  }

  /** A new endpoint: nothing queued, nothing received, nothing put on the network. */
  ghost predicate Fresh(t: Tcb) {
    && Wf(t) && Roomy(t.cc) && Scaled(t.rcv) && !t.halted && t.supportScale && t.state.Listen?
    && t.snd == Snd([], t.snd.buf, 0, 1, 0, 0) && t.snd.buf.len == 0
    && t.rcv == Rcv([], t.rcv.buf, 0, |t.rcv.buf.slots|, t.rcv.scale) && t.rcv.buf.len == 0
    && t.io.out == []
  }

  lemma NewTcbIsFresh(conv: nat, rcvSize: nat, sndSize: nat, now: nat)
    requires CONNECT <= rcvSize < U32 && CONNECT <= sndSize
    ensures Fresh(NewTcb(conv, rcvSize, sndSize, now))
  {
    NewTcbScaled(rcvSize);
    var (k, f) := ScaledSize(rcvSize);
    ProductOverFactor(k, Pow2(f));
  }

  lemma FreshLink(s: Tcb, r: Tcb)
    requires Fresh(s) && Fresh(r)
    ensures Link(s, r, [], [])
  {
    DivideDecreases(|r.rcv.buf.slots|, Pow2(r.rcv.scale));
  }

  lemma FreshIsCoherent(x: Half, y: Half)
    requires Fresh(x.t) && Fresh(y.t) && x.t.conv == y.t.conv
    requires x.sent == x.got == y.sent == y.got == []
    ensures Coherent(x, y)
  {
    FreshLink(x.t, y.t);
    FreshLink(y.t, x.t);
  }

  /** Two new endpoints of one conversation, of any buffer sizes. */
  ghost predicate Initial(s: Sys) {
    && Fresh(s.a.t) && Fresh(s.b.t) && s.a.t.conv == s.b.t.conv
    && s.a.sent == s.a.got == s.b.sent == s.b.got == []
  }

  lemma NewPairIsInitial(conv: nat, rcvA: nat, sndA: nat, nowA: nat, rcvB: nat, sndB: nat, nowB: nat)
    requires CONNECT <= rcvA < U32 && CONNECT <= sndA && CONNECT <= rcvB < U32 && CONNECT <= sndB
    ensures Initial(Sys(Half(NewTcb(conv, rcvA, sndA, nowA), [], []), Half(NewTcb(conv, rcvB, sndB, nowB), [], [])))
  {
    NewTcbIsFresh(conv, rcvA, sndA, nowA);
    NewTcbIsFresh(conv, rcvB, sndB, nowB);
  }

  lemma InitialIsCoherent(s: Sys)
    requires Initial(s)
    ensures SysWf(s) && Coherent(s.a, s.b)
  {
    FreshIsCoherent(s.a, s.b);
  }

  lemma DivideDecreases(n: nat, q: nat)
    requires q > 0
    ensures n / q <= n
  {
    QuotientTimes(n, q);
    MulMono(1, q, n / q);
  }

  lemma NextKeepsCoherent(s: Sys, step: Step)
    requires SysWf(s) && Coherent(s.a, s.b)
    ensures Coherent(Next(s, step).a, Next(s, step).b)
  {
    hide Coherent, Act;
    SwapCoherent(s.a, s.b);
    match step
    case OfA(op) =>
      if Legal(s.b.t, op) { ActKeepsCoherent(s.a, s.b, op); }
    case OfB(op) =>
      if Legal(s.a.t, op) {
        ActKeepsCoherent(s.b, s.a, op);
        SwapCoherent(Act(s.b, op), s.a);
      }
  }

  lemma SwapCoherent(x: Half, y: Half)
    requires Coherent(x, y)
    ensures Coherent(y, x)
  {
    hide Coupled;
  }

  lemma {:induction false} RunKeepsCoherent(s: Sys, steps: seq<Step>)
    requires SysWf(s) && Coherent(s.a, s.b)
    ensures var u := Run(s, steps); Coherent(u.a, u.b)
  {
    hide Coherent, Next;
    if steps != [] {
      var m := Run(s, steps[..|steps| - 1]);
      RunKeepsCoherent(s, steps[..|steps| - 1]);
      NextKeepsCoherent(m, steps[|steps| - 1]);
    }
  }
}
