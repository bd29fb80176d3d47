/** Concrete runs of one endpoint, from its creation, at the ends of which properties fail: each
    shows that the exception in an exact condition occurs. */
module TcpExamples {
  import opened Numbers
  import opened FifoBuffers
  import opened TcpSegments
  import opened TcpTypes
  import opened TcpSender
  import opened TcpReceiver
  import opened TcpEndpoint
  import opened TcpLink
  import opened TcpSystem
  import opened TcpPolicies
  import opened TcpProgress
  import opened TcpRuns
  import opened TcpDuplicates
  import opened TcpRecovery
  import opened TcpTimers

  const TAKES_ALL: Writer := (n: nat) => Success
  const TAKES_NONE: Writer := (n: nat) => Fail

  // ---- One round of sending, exactly ----

  /** The endpoint after a packet with payload has gone out. */
  function WithSent(t: Tcb, s: Snd, io: Io, now: nat): Tcb {
    t.(snd := s, io := io, outgoing := true,
       tm := t.tm.(tAck := 0, lasttraffic := now, lastsend := now, tsLastack := t.rcv.nxt,
                   rtoBase := if t.tm.rtoBase == 0 then now else t.tm.rtoBase))
  }

  lemma TransmitExactly(t: Tcb, i: nat, now: nat, w: Writer)
    requires Wf(t) && Transmittable(t.snd, i) && w(t.io.writes).Success?
    requires t.snd.una <= t.snd.slist[i].seqno && t.snd.slist[i].xmit < 15
    ensures var (ok, u) := Transmit(t, i, now, w);
            var n := Min(t.snd.slist[i].len, t.cc.mss);
            && ok && u == WithSent(t, u.snd, u.io, now)
            && u.snd == Mark(t.snd, i, n)
  {
    SegmentFits(t.snd, i);
    hide Segs, Tries, Sends, Quiet, Acknowledging;
  }

  /** All there is to send goes out in one packet. */
  predicate SendsAtOnce(t: Tcb)
    requires Wf(t)
  {
    var n := Available(t);
    n > 0 && n == Unsent(t.snd) && !NagleHolds(t, n) && NextLength(t, n) == n
  }

  lemma TurnSends(t: Tcb, flags: SendFlags, now: nat, w: Writer)
    requires Wf(t) && SendsAtOnce(t) && w(t.io.writes).Success?
    ensures var (done, u) := Turn(t, flags, now, w);
            && !done && u == WithSent(t, u.snd, u.io, now)
            && u.snd.nxt == t.snd.una + t.snd.buf.len && SameBuffer(t.snd, u.snd) && FrontCounted(t.snd, u.snd)
  {
    var n := Available(t);
    var c := CutNext(t, n);
    var k := FirstUnsent(c.snd.slist);
    CutIsNextLength(t, n);
    UnsentFits(c.snd.slist, c.snd.una, c.snd.nxt, c.snd.una + c.snd.buf.len, k);
    EndIsLast(c.snd.slist, c.snd.una, c.snd.nxt, c.snd.una + c.snd.buf.len);
    TransmitExactly(c, k, now, w);
    WholeFront(t, n);
    hide Available, Transmit, NextLength, Segs, Quiet, FrontCounted, CcOk;
  }

  /** The oldest segment as it was, or transmitted for the first time. */
  predicate FrontCounted(a: Snd, b: Snd) {
    a.slist != [] ==>
      && b.slist != []
      && b.slist[0] == if a.slist[0].xmit > 0 then a.slist[0] else Count(a.slist[0])
  }

  lemma WholeFront(t: Tcb, n: nat)
    requires Wf(t) && 0 < n == Unsent(t.snd) && NextLength(t, n) == n
    ensures var u := CutNext(t, n).snd;
            var k := FirstUnsent(u.slist);
            k < |u.slist| && n <= u.slist[k].len && FrontCounted(t.snd, Mark(u, k, n))
  {
    CutNextOk(t.snd, n);
    UnsentExists(t.snd.slist, t.snd.una, t.snd.nxt, t.snd.una + t.snd.buf.len);
    UnsentFits(t.snd.slist, t.snd.una, t.snd.nxt, t.snd.una + t.snd.buf.len, FirstUnsent(t.snd.slist));
    hide Segs, CcOk;
  }

  lemma NothingAvailable(t: Tcb)
    requires Wf(t) && Unsent(t.snd) == 0
    ensures Available(t) == 0
  {
  }

  lemma AttemptSendsAll(t: Tcb, flags: SendFlags, now: nat, w: Writer)
    requires Wf(t) && SendsAtOnce(t) && w(t.io.writes).Success? && Restarted(t, now) == t
    ensures var u := AttemptSend(t, flags, now, w);
            && u == WithSent(t, u.snd, u.io, now)
            && u.snd.nxt == t.snd.una + t.snd.buf.len && SameBuffer(t.snd, u.snd) && FrontCounted(t.snd, u.snd)
  {
    hide SendsAtOnce, SendNext, Available, Restarted, FrontCounted;
    TurnSends(t, flags, now, w);
    var u := Turn(t, flags, now, w).1;
    NothingAvailable(u);
    assert Turn(u, None, now, w) == (true, u);
    assert AttemptLoop(u, None, now, w) == u;
  }

  lemma AttemptSendsNothing(t: Tcb, flags: SendFlags, now: nat, w: Writer)
    requires Wf(t) && Unsent(t.snd) == 0
    ensures AttemptSend(t, flags, now, w) == FinishSend(Restarted(t, now), flags, now, w)
  {
    hide FinishSend, SendNext, Available;
    NothingAvailable(Restarted(t, now));
  }

  // ---- A connection opens ----

  const SIZE: nat := 100000

  function NewEndpoint(): Tcb { NewTcb(0, SIZE, 8, 0) }

  /** The peer's connect message, sent before it has heard of ours. */
  const HELLO: Packet := Packet(0, 0, 0, FLAG_CTL, 100, 0, 0, [CTL_CONNECT, TCP_OPT_WND_SCALE, 1, 0])

  /** What does not change from the creation on. */
  ghost predicate Ordinary(t: Tcb, nagling: bool) {
    && Wf(t) && t.conv == 0 && !t.halted && t.shutdown.NoShutdown? && t.supportScale && !t.writeEnable
    && t.nagling == nagling && t.ackDelay == 0
    && t.rcv.scale == 1 && |t.rcv.buf.slots| == SIZE && t.rcv.buf.len == 0 && t.rcv.rlist == []
    && |t.snd.buf.slots| == 8 && t.snd.una == 0
    && t.cc.mtuAdvise == MAX_PACKET && t.cc.dupAcks == 0 && t.cc.recover == 0
    && t.tm.rto == DEF_RTO && t.tm.tAck == 0 && t.tm.tsLastack < 9 && t.snd.scale == 0
  }

  ghost predicate Created(t: Tcb, nagling: bool) {
    && Ordinary(t, nagling) && t.state.Listen?
    && t.snd == Snd([], t.snd.buf, 0, 1, 0, 0) && t.snd.buf.len == 0 && t.rcv.nxt == 0
    && t.cc.mss == 180 && t.cc.cwnd == 360 && t.tm.lastsend == 0 && t.tm.rtoBase == 0
  }

  lemma NewFields()
    ensures var t := NewEndpoint();
            && t.conv == 0 && t.shutdown.NoShutdown? && !t.writeEnable
            && t.rcv.scale == 1 && |t.rcv.buf.slots| == SIZE && |t.snd.buf.slots| == 8
            && t.cc == Cc(180, 0, 0, MAX_PACKET, t.cc.ssthresh, 360, 0, 0)
            && t.tm.rto == DEF_RTO && t.tm.tAck == 0 && t.tm.lastsend == 0 && t.tm.rtoBase == 0
            && t.tm.tsLastack == 0
  {
    assert ScaledSize(50000) == (50000, 0);
    assert ScaledSize(SIZE) == (50000, 1);
    assert Pow2(1) == 2 * Pow2(0);
  }

  lemma NewIsFresh()
    ensures Fresh(NewEndpoint()) && Wf(NewEndpoint())
  {
    hide NewTcb;
    NewTcbIsFresh(0, SIZE, 8, 0);
  }

  lemma NewIsCreated(nagling: bool)
    ensures Fresh(NewEndpoint())
    ensures Created(NewEndpoint().(nagling := nagling, ackDelay := 0), nagling)
  {
    hide NewEndpoint;
    NewIsFresh();
    NewFields();
  }

  const CONNECTING: SSegment := SSegment(0, 4, 1, true)

  /** The connect message is the oldest segment, transmitted once. */
  predicate InFront(s: Snd) { s.slist != [] && s.slist[0] == CONNECTING }

  /** The connect message is in flight, sent at 1. */
  ghost predicate Greeted(t: Tcb, nagling: bool) {
    && Ordinary(t, nagling) && t.state.SentSyn?
    && t.snd.nxt == 4 && t.snd.buf.len == 4 && t.rcv.nxt == 0
    && t.tm.lastsend == 1 && t.tm.rtoBase == 1 && t.tm.tsLastack == 0 && InFront(t.snd)
  }

  lemma GreetsAtOnce(t: Tcb, nagling: bool)
    requires Created(t, nagling)
    ensures var u := Greet(t, SentSyn);
            && SendsAtOnce(u) && u.snd.buf.len == 4 && u.snd.una == 0 && u == t.(state := SentSyn, snd := u.snd)
            && |u.snd.buf.slots| == 8 && u.snd.slist == [SSegment(0, 4, 0, true)]
  {
    hide Quiet, CcOk, Segs;
  }

  lemma ConnectGreets(t: Tcb, nagling: bool)
    requires Created(t, nagling)
    ensures Greeted(Connect(t, 1, TAKES_ALL).1, nagling)
  {
    GreetsAtOnce(t, nagling);
    var u := Greet(t, SentSyn);
    hide Greet, AttemptSend, SendsAtOnce, Quiet;
    assert Restarted(u, 1) == u;
    AttemptSendsAll(u, None, 1, TAKES_ALL);
  }

  /** The hand-shake is over, and the connect message still in flight. */
  ghost predicate Open(t: Tcb, nagling: bool) {
    && Ordinary(t, nagling) && t.state.Established?
    && t.snd.nxt == 4 && t.snd.buf.len == 4 && t.snd.wnd == 100 && t.snd.scale == 0
    && t.rcv.nxt == 4
    && t.cc.mss == 65419 && t.cc.mss <= t.cc.cwnd && 2 * t.cc.mss <= t.cc.ssthresh && Steady(t.state, t.cc)
    && t.tm.lastsend == 1 && t.tm.rtoBase == 1 && InFront(t.snd)
  }

  lemma HelloOptions()
    ensures OptionsOf(HELLO) == Options([0], true, false)
  {
    var d := HELLO.data[1..];
    assert d == [TCP_OPT_WND_SCALE, 1, 0];
    var rest := d[2..];
    assert rest == [0] && rest[1..] == [];
    var o := Options([], true, false);
    assert ParseOptions(rest[1..], o.(scale := [rest[0]])) == o.(scale := [rest[0]]);
  }

  /** After the control data of the peer's connect message. */
  ghost predicate Shaken(t: Tcb, nagling: bool) {
    && Ordinary(t, nagling) && t.state.Established?
    && t.snd.nxt == 4 && t.snd.buf.len == 4 && t.snd.scale == 0 && t.rcv.nxt == 0
    && t.cc.mss == 65419 && Steady(t.state, t.cc)
    && t.tm.lastsend == 1 && t.tm.rtoBase == 1 && t.tm.tsLastack == 0 && InFront(t.snd)
  }

  lemma HelloControls(t: Tcb, nagling: bool)
    requires Greeted(t, nagling)
    ensures var c := Control(t, HELLO);
            c == Accept(c.t, true) && Shaken(c.t, nagling)
  {
    HelloOptions();
    hide OptionsOf, Quiet, SndOk;
  }

  lemma AfterHello(t: Tcb, nagling: bool, tm: Tm)
    requires Shaken(t, nagling) && tm == t.tm.(tsRecent := HELLO.tsval)
    ensures var u := t.(snd := t.snd.(wnd := 100), tm := tm);
            Shaken(u, nagling) && AfterAck(u, true) == u
  {
    hide CcOk, Segs, Quiet;
  }

  lemma Unrepeated(t: Tcb, now: nat, w: Writer)
    requires Wf(t)
    ensures Repeated(t, false, now, w) == Fine(t)
  {
  }

  lemma HelloAcknowledges(t: Tcb, nagling: bool)
    requires Shaken(t, nagling)
    ensures var r := Acknowledge(Stamp(t, HELLO), HELLO, 1, TAKES_ALL);
            r == Fine(t.(snd := t.snd.(wnd := 100), tm := r.t.tm)) && r.t.tm == t.tm.(tsRecent := HELLO.tsval)
  {
    hide NewAck, Quiet, SndOk, CcOk, Repeated;
    assert Pow2(0) == 1;
    assert WindowOf(HELLO, 0) == 100;
    hide WindowOf;
    var u := Stamp(t, HELLO);
    assert u == t.(tm := t.tm.(tsRecent := HELLO.tsval));
    AfterHello(t, nagling, u.tm);
    Unrepeated(u.(snd := u.snd.(wnd := 100)), 1, TAKES_ALL);
  }

  lemma HelloArrives(t: Tcb, nagling: bool)
    requires Shaken(t, nagling)
    ensures var v := ArriveAt(t, HELLO);
            && v == Arrival(v.rcv, true, false, false, false)
            && v.rcv == t.rcv.(buf := v.rcv.buf, nxt := 4) && v.rcv.buf.len == 0
            && |v.rcv.buf.slots| == SIZE
  {
    hide SndOk, CcOk;
  }

  lemma HelloAnswered(t: Tcb, nagling: bool)
    requires Shaken(t, nagling) && t.snd.wnd == 100
    ensures Open(Payload(t, HELLO, 1, TAKES_ALL).1, nagling)
  {
    HelloArrives(t, nagling);
    hide ArriveAt, AttemptSend, Quiet, Acknowledging, Segs;
    var u := WithRcv(t, ArriveAt(t, HELLO).rcv, false);
    AttemptSendsNothing(u, ImmediateAck, 1, TAKES_ALL);
    assert Restarted(u, 1) == u;
  }

  lemma HelloAnswers(t: Tcb, nagling: bool)
    requires Shaken(t, nagling)
    ensures Open(Answer(t, HELLO, true, 1, TAKES_ALL).1, nagling)
  {
    HelloAcknowledges(t, nagling);
    var r := Acknowledge(Stamp(t, HELLO), HELLO, 1, TAKES_ALL);
    AfterHello(t, nagling, r.t.tm);
    hide Acknowledge, Payload, AfterAck, Ordinary, SndOk, CcOk, Keeps;
    HelloAnswered(r.t, nagling);
  }

  lemma ReceivedIsGreeted(t: Tcb, nagling: bool)
    requires Greeted(t, nagling)
    ensures Greeted(Received(t, 1), nagling)
  {
  }

  lemma HelloHandled(t: Tcb, nagling: bool)
    requires Greeted(t, nagling)
    ensures Open(Handle(t, HELLO, 1, TAKES_ALL).1, nagling)
  {
    HelloControls(t, nagling);
    hide Control, Answer, Keeps, SndOk, CcOk, Quiet, Renegotiates, Shaken, Open;
    HelloAnswers(Control(t, HELLO).t, nagling);
  }

  lemma HelloOpens(t: Tcb, nagling: bool)
    requires Greeted(t, nagling)
    ensures Open(Process(t, HELLO, 1, TAKES_ALL).1, nagling)
  {
    ReceivedIsGreeted(t, nagling);
    ProcessHandles(t, HELLO, 1, TAKES_ALL);
    hide Handle, Process, Open;
    HelloHandled(Received(t, 1), nagling);
  }

  function Opening(nagling: bool): seq<Op> {
    [DoNoDelay(!nagling), DoAckDelay(0), DoConnect(1, TAKES_ALL), Arrives(HELLO, 1, TAKES_ALL)]
  }

  /** `t` is the end of a run from the creation of an endpoint. */
  ghost predicate Ends(ops: seq<Op>, t: Tcb) {
    Fresh(NewEndpoint()) && Wf(NewEndpoint()) && t == After(NewEndpoint(), ops)
  }

  lemma RunGoesOn(ops: seq<Op>, t: Tcb, op: Op)
    requires Wf(t) && Ends(ops, t)
    ensures Ends(ops + [op], Then(t, op))
  {
    hide After, Then, NewEndpoint, Fresh, Wf;
    assert (ops + [op])[..|ops|] == ops;
    AfterLast(NewEndpoint(), ops + [op]);
  }

  lemma RunBegins()
    ensures Ends([], NewEndpoint())
  {
    hide NewEndpoint, Fresh;
    NewIsFresh();
  }

  lemma RunIsSetUp(nagling: bool) returns (t: Tcb)
    ensures Ends([DoNoDelay(!nagling), DoAckDelay(0)], t) && Created(t, nagling)
  {
    RunBegins();
    NewIsCreated(nagling);
    hide Ends, Created, NewEndpoint, Wf;
    var ops := [DoNoDelay(!nagling)];
    RunGoesOn([], NewEndpoint(), DoNoDelay(!nagling));
    assert [] + ops == ops;
    t := Then(NewEndpoint(), DoNoDelay(!nagling));
    RunGoesOn(ops, t, DoAckDelay(0));
    assert ops + [DoAckDelay(0)] == [DoNoDelay(!nagling), DoAckDelay(0)];
    t := Then(t, DoAckDelay(0));
  }

  lemma ThenIs(t: Tcb, now: nat, w: Writer, data: seq<byte>)
    requires Wf(t)
    ensures Then(t, DoConnect(now, w)) == Connect(t, now, w).1
    ensures Then(t, DoSend(data, now, w)) == Send(t, data, now, w).1
  {
    hide Send, Connect;
  }

  lemma RunOpens(nagling: bool) returns (t: Tcb)
    ensures Ends(Opening(nagling), t) && Open(t, nagling)
  {
    t := RunIsSetUp(nagling);
    hide Connect, Process, Open, Greeted, Ends, Then, HELLO, SndOk, CcOk;
    ConnectGreets(t, nagling);
    ThenIs(t, 1, TAKES_ALL, []);
    hide Created, Wf;
    RunGoesOn([DoNoDelay(!nagling), DoAckDelay(0)], t, DoConnect(1, TAKES_ALL));
    t := Then(t, DoConnect(1, TAKES_ALL));
    HelloOpens(t, nagling);
    ThenProcesses(t, Arrives(HELLO, 1, TAKES_ALL));
    var ops := [DoNoDelay(!nagling), DoAckDelay(0)] + [DoConnect(1, TAKES_ALL)];
    RunGoesOn(ops, t, Arrives(HELLO, 1, TAKES_ALL));
    t := Then(t, Arrives(HELLO, 1, TAKES_ALL));
    assert ops + [Arrives(HELLO, 1, TAKES_ALL)] == Opening(nagling);
  }

  // ---- A packet arrives out of order, and its acknowledgment is forgotten ----

  /** A byte of the peer that comes before others, which asks for an acknowledgment at once. */
  const STRAY: Packet := Packet(0, 9, 0, 0, 100, 0, 0, [1])

  lemma StrayArrives(t: Tcb, nagling: bool)
    requires Ordinary(t, nagling) && t.rcv.nxt < 9
    ensures var v := ArriveAt(t, STRAY);
            v == Arrival(v.rcv, true, false, false, false) && v.rcv.rlist == [RSegment(9, 1)]
  {
    hide SndOk, CcOk;
  }

  lemma StrayPayload(t: Tcb, nagling: bool, w: Writer)
    requires Ordinary(t, nagling) && t.rcv.nxt < 9
    ensures var v := ArriveAt(t, STRAY);
            && Payload(t, STRAY, 1, w).1 == AttemptSend(t.(rcv := v.rcv), ImmediateAck, 1, w)
            && v.rcv.rlist == [RSegment(9, 1)]
  {
    StrayArrives(t, nagling);
    hide ArriveAt, AttemptSend, SndOk, CcOk, Quiet;
  }

  /** The endpoint with the stray byte stored, about to reply. */
  function WithStray(t: Tcb): (x: Tcb)
    requires t.rcv.buf.Valid()
  {
    t.(snd := t.snd.(wnd := 100), rcv := ArriveAt(t, STRAY).rcv, outgoing := false,
       tm := t.tm.(lasttraffic := 1, lastrecv := 1))
  }

  lemma StrayAcknowledged(t: Tcb, nagling: bool, w: Writer)
    requires Ordinary(t, nagling)
    ensures Stamp(t, STRAY) == t && Acknowledge(t, STRAY, 1, w) == Fine(t.(snd := t.snd.(wnd := 100)))
  {
    OldNewsSetsWindow(t, STRAY, 1, w);
    assert Pow2(0) == 1 && WindowOf(STRAY, 0) == 100;
    hide Acknowledge, SndOk, CcOk;
  }

  lemma OpenWindowIsOrdinary(t: Tcb, nagling: bool)
    requires Ordinary(t, nagling)
    ensures Ordinary(t.(snd := t.snd.(wnd := 100)), nagling)
  {
  }

  lemma StrayAnswered(t: Tcb, nagling: bool, w: Writer)
    requires Ordinary(t, nagling) && t.rcv.nxt < 9 && !t.state.ReceivedSyn?
    ensures var x := t.(snd := t.snd.(wnd := 100), rcv := ArriveAt(t, STRAY).rcv);
            && Wf(x) && Answer(t, STRAY, false, 1, w).1 == AttemptSend(x, ImmediateAck, 1, w)
            && x.rcv.rlist == [RSegment(9, 1)]
  {
    var u := t.(snd := t.snd.(wnd := 100));
    StrayAcknowledged(t, nagling, w);
    OpenWindowIsOrdinary(t, nagling);
    assert ArriveAt(u, STRAY) == ArriveAt(t, STRAY);
    StrayPayload(u, nagling, w);
    assert AfterAck(u, false) == u;
    hide Acknowledge, Payload, ArriveAt, AttemptSend, Stamp, AfterAck, SndOk, CcOk, Quiet, Keeps;
  }

  lemma ReceivedIsOrdinary(t: Tcb, nagling: bool)
    requires Ordinary(t, nagling)
    ensures Ordinary(Received(t, 1), nagling)
  {
  }

  /** Processing the stray byte stores it and tries to reply. */
  lemma StrayProcessed(t: Tcb, nagling: bool, w: Writer)
    requires Ordinary(t, nagling) && t.rcv.nxt < 9 && !t.state.Closed? && !t.state.ReceivedSyn?
    ensures var x := WithStray(t);
            && Wf(x) && x.rcv.rlist == [RSegment(9, 1)]
            && Process(t, STRAY, 1, w).1 == AttemptSend(x, ImmediateAck, 1, w)
  {
    ReceivedIsOrdinary(t, nagling);
    ProcessHandles(t, STRAY, 1, w);
    var t1 := Received(t, 1);
    StrayAnswered(t1, nagling, w);
    assert Control(t1, STRAY) == Accept(t1, false);
    hide Control, Answer, ArriveAt, AttemptSend, Process, Segs, CcOk, Quiet, Keeps, Renegotiates;
    assert Handle(t1, STRAY, 1, w) == Answer(t1, STRAY, false, 1, w);
  }

  const BYTE: seq<byte> := [7]

  lemma QueuedByte(t: Tcb, nagling: bool)
    requires Open(t, nagling)
    ensures var u := Queued(t, BYTE);
            && u == t.(snd := u.snd) && u.snd.nxt == 4 && u.snd.buf.len == 5 && u.snd.una == 0 && u.snd.wnd == 100
            && Available(u) == Unsent(u.snd) == 1 && NextLength(u, 1) == 1
            && (nagling <==> NagleHolds(u, 1)) && Restarted(u, 1) == u && |u.snd.buf.slots| == 8 && InFront(u.snd)
            && (nagling ==> HeldBack(u))
  {
    hide Quiet, Segs, CcOk;
  }

  /** With Nagle's rule a byte waits behind the connect message. */
  lemma ByteWaits(t: Tcb)
    requires Open(t, true)
    ensures Send(t, BYTE, 1, TAKES_ALL).1 == Queued(t, BYTE)
  {
    QueuedByte(t, true);
    hide Available, NextLength, Queued, Quiet, SndOk, CcOk;
  }

  lemma SameNext(t: Tcb, u: Tcb)
    requires Wf(t) && Wf(u) && u.snd == t.snd && u.cc == t.cc && u.nagling == t.nagling
    ensures Available(u) == Available(t) && HeldBack(u) == HeldBack(t)
  {
  }

  lemma HeldBackDoesNothing(t: Tcb, flags: SendFlags, now: nat, w: Writer)
    requires Wf(t) && HeldBack(t) && Restarted(t, now) == t
    ensures AttemptSend(t, flags, now, w) == t
  {
    hide Available, SendNext, FinishSend;
  }

  /** What an out-of-order packet leaves when the endpoint does not reply: it is stored, no packet is
      on the network and no acknowledgment is due. */
  predicate Forgotten(t: Tcb, u: Tcb) {
    u.rcv.rlist == [RSegment(9, 1)] && u.io.out == t.io.out && u.tm.tAck == 0
  }

  lemma QueuedForgets(t: Tcb)
    requires Open(t, true)
    ensures var u := Queued(t, BYTE); Forgotten(u, Process(u, STRAY, 1, TAKES_ALL).1)
  {
    QueuedByte(t, true);
    var u := Queued(t, BYTE);
    QueuedIsOrdinary(t);
    hide Process, Queued, HeldBack, Available, NextLength, ArriveAt, AttemptSend, Quiet, SndOk, CcOk;
    StrayProcessed(u, true, TAKES_ALL);
    SameNext(u, WithStray(u));
    HeldBackDoesNothing(WithStray(u), ImmediateAck, 1, TAKES_ALL);
  }

  lemma QueuedIsOrdinary(t: Tcb)
    requires Open(t, true)
    ensures Ordinary(Queued(t, BYTE), true)
  {
    hide Quiet, Segs, CcOk;
  }

  /** And so does an acknowledgment that ought to go at once: a run at whose end a packet arrives out
      of order, while Nagle's rule holds back the byte. */
  lemma NagleForgetsAcknowledgment() returns (t: Tcb)
    ensures Wf(t) && t.tm.tAck == 0 && HeldBack(Restarted(t, 1))
    ensures Forgotten(t, Process(t, STRAY, 1, TAKES_ALL).1)
    ensures Ends(Opening(true) + [DoSend(BYTE, 1, TAKES_ALL)], t)
  {
    t := RunOpens(true);
    hide Ends, Then, Opening, Process;
    ByteWaits(t);
    ThenIs(t, 1, TAKES_ALL, BYTE);
    QueuedByte(t, true);
    QueuedForgets(t);
    RunGoesOn(Opening(true), t, DoSend(BYTE, 1, TAKES_ALL));
    t := Queued(t, BYTE);
    hide Send, Queued, Available, NextLength, Quiet, SndOk, CcOk, Forgotten;
  }

  lemma TransmitRefused(t: Tcb, now: nat)
    requires Wf(t) && Transmittable(t.snd, FirstUnsent(t.snd.slist))
    ensures Transmit(t, FirstUnsent(t.snd.slist), now, TAKES_NONE) ==
            (false, t.(io := t.io.(writes := t.io.writes + 1), tm := t.tm.(tsLastack := t.rcv.nxt)))
  {
    var k := FirstUnsent(t.snd.slist);
    UnsentFits(t.snd.slist, t.snd.una, t.snd.nxt, t.snd.una + t.snd.buf.len, k);
    hide Segs, Tries, Sends, Quiet, Acknowledging;
  }

  lemma CutWhole(t: Tcb, n: nat)
    requires Wf(t) && 0 < n <= Unsent(t.snd) && FirstUnsent(t.snd.slist) < |t.snd.slist|
    requires NextLength(t, n) == t.snd.slist[FirstUnsent(t.snd.slist)].len
    ensures CutNext(t, n) == t
  {
    CutNextOk(t.snd, n);
  }

  /** A refused connect message leaves the endpoint as it was. */
  lemma GreetingRefused(t: Tcb, flags: SendFlags, nagling: bool)
    requires Wf(t) && SendsAtOnce(t) && |t.snd.slist| == 1 && t.snd.slist[0].len == t.snd.buf.len
    requires Restarted(t, 1) == t && t.snd.una == t.snd.nxt == 0
    ensures AttemptSend(t, flags, 1, TAKES_NONE) ==
            t.(io := t.io.(writes := t.io.writes + 1), tm := t.tm.(tsLastack := t.rcv.nxt))
  {
    var n := Available(t);
    UnsentExists(t.snd.slist, t.snd.una, t.snd.nxt, t.snd.una + t.snd.buf.len);
    CutWhole(t, n);
    TransmitRefused(t, 1);
    hide Available, Transmit, CutNext, Quiet, Segs;
  }

  /** The connect message waits to be sent. */
  ghost predicate Waiting(t: Tcb, nagling: bool) {
    && Ordinary(t, nagling) && t.state.SentSyn? && t.rcv.nxt == 0 && t.snd.wnd <= 100
    && SendsAtOnce(t) && Restarted(t, 1) == t
    && t.snd.una == t.snd.nxt == 0 && |t.snd.slist| == 1 && t.snd.slist[0].len == t.snd.buf.len == 4
  }

  lemma WaitsFor(t: Tcb, nagling: bool)
    requires Created(t, nagling)
    ensures Waiting(Greet(t, SentSyn), nagling)
  {
    GreetsAtOnce(t, nagling);
  }

  lemma RefusedStillWaits(t: Tcb, flags: SendFlags, nagling: bool)
    requires Waiting(t, nagling)
    ensures var u := AttemptSend(t, flags, 1, TAKES_NONE);
            Waiting(u, nagling) && DataRefused(u, TAKES_NONE) && u.io.out == t.io.out
  {
    GreetingRefused(t, flags, nagling);
    var u := AttemptSend(t, flags, 1, TAKES_NONE);
    hide AttemptSend, Segs, Available, NextLength;
    SameNext(t, u);
    assert Available(u) == Available(t) && NextLength(u, Available(u)) == NextLength(t, Available(t));
  }

  lemma ConnectRefused(t: Tcb, nagling: bool)
    requires Created(t, nagling)
    ensures var u := Connect(t, 1, TAKES_NONE).1; Waiting(u, nagling) && DataRefused(u, TAKES_NONE)
  {
    WaitsFor(t, nagling);
    hide Greet, AttemptSend, Waiting, Quiet, SndOk, CcOk;
    RefusedStillWaits(Greet(t, SentSyn), None, nagling);
  }

  /** A wider window of the peer does not matter when all is sent at once anyway. */
  lemma WiderSendsAtOnce(t: Tcb, x: Tcb)
    requires Wf(t) && Wf(x) && SendsAtOnce(t) && t.snd.una == t.snd.nxt && t.snd.wnd <= x.snd.wnd
    requires x.snd == t.snd.(wnd := x.snd.wnd) && x.cc == t.cc && x.nagling == t.nagling
    ensures SendsAtOnce(x)
  {
    hide Segs, CcOk;
  }

  lemma WaitingForgets(t: Tcb)
    requires Waiting(t, true)
    ensures Forgotten(t, Process(t, STRAY, 1, TAKES_NONE).1)
  {
    hide AttemptSend, SendsAtOnce, ArriveAt, Process, Segs, CcOk;
    StrayProcessed(t, true, TAKES_NONE);
    var x := WithStray(t);
    WiderSendsAtOnce(t, x);
    GreetingRefused(x, ImmediateAck, true);
  }

  /** A run at whose end data wait that the network does not take: the acknowledgment is forgotten
      with them. */
  lemma RefusedDataForgetAcknowledgment() returns (t: Tcb)
    ensures Wf(t) && t.tm.tAck == 0 && DataRefused(Restarted(t, 1), TAKES_NONE)
    ensures Forgotten(t, Process(t, STRAY, 1, TAKES_NONE).1)
    ensures Ends([DoNoDelay(false), DoAckDelay(0)] + [DoConnect(1, TAKES_NONE)], t)
  {
    t := RunIsSetUp(true);
    hide Connect, Process, Ends, Then, Restarted, DataRefused, Forgotten, SndOk, CcOk, SendsAtOnce;
    ConnectRefused(t, true);
    ThenIs(t, 1, TAKES_NONE, []);
    RunGoesOn([DoNoDelay(false), DoAckDelay(0)], t, DoConnect(1, TAKES_NONE));
    t := Then(t, DoConnect(1, TAKES_NONE));
    WaitingForgets(t);
  }

  lemma CreatedForgets(t: Tcb)
    requires Created(t, true)
    ensures AckRefused(Restarted(t, 1), ImmediateAck, TAKES_NONE)
    ensures Forgotten(t, Process(t, STRAY, 1, TAKES_NONE).1)
  {
    NothingAvailable(Restarted(t, 1));
    StrayProcessed(t, true, TAKES_NONE);
    var x := WithStray(t);
    AttemptSendsNothing(x, ImmediateAck, 1, TAKES_NONE);
    hide Available, AttemptSend, Process, ArriveAt, Quiet, CcOk;
  }

  /** A run at whose end there are no data, and the network refuses the bare acknowledgment, which
      then counts as sent. */
  lemma RefusedAcknowledgmentCountsAsSent() returns (t: Tcb)
    ensures Wf(t) && AckRefused(Restarted(t, 1), ImmediateAck, TAKES_NONE)
    ensures Forgotten(t, Process(t, STRAY, 1, TAKES_NONE).1)
    ensures Ends([DoNoDelay(false), DoAckDelay(0)], t)
  {
    t := RunIsSetUp(true);
    hide Process, Ends, Restarted, AckRefused, Forgotten, SndOk, CcOk;
    CreatedForgets(t);
  }

  // ---- A late renegotiation ----

  /** A connect message without options. */
  const LATE: Packet := Packet(0, 0, 0, FLAG_CTL, 100, 0, 0, [CTL_CONNECT])

  /** What a repeated connect message leaves alone, besides what its options do. */
  ghost predicate SameSizes(t: Tcb, u: Tcb) {
    u.state == t.state && u.cc == t.cc.(cwnd := u.cc.cwnd)
  }

  lemma PayloadKeepsSizes(t: Tcb, p: Packet, now: nat, w: Writer)
    requires Wf(t) && Unsent(t.snd) == 0
    ensures SameSizes(t, Payload(t, p, now, w).1)
  {
    var v := ArriveAt(t, p);
    var u := WithRcv(t, v.rcv, v.halted);
    var flags := if v.recovered then ImmediateAck else ReplyFlags(t, p);
    AttemptSendsNothing(u, flags, now, w);
    hide ArriveAt, AttemptSend, Quiet, SndOk, CcOk;
  }

  /** An acknowledgment of nothing new, with data, sets the window only. */
  lemma OldNewsSetsWindow(t: Tcb, p: Packet, now: nat, w: Writer)
    requires Wf(t) && p.ack == t.snd.una && p.data != []
    ensures Acknowledge(t, p, now, w) == Fine(t.(snd := t.snd.(wnd := WindowOf(p, t.snd.scale))))
  {
    Unrepeated(t.(snd := t.snd.(wnd := WindowOf(p, t.snd.scale))), now, w);
    hide NewAck, Repeated, WindowOf, Keeps, Quiet;
  }

  lemma AfterAckKeepsSizes(t: Tcb)
    requires Wf(t) && t.state.Established?
    ensures var u := AfterAck(t, true); SameSizes(t, u) && u.snd == t.snd
  {
    hide Keeps, Quiet, SndOk, CcOk;
  }

  lemma StampKeepsSizes(t: Tcb, p: Packet)
    requires Wf(t)
    ensures Wf(Stamp(t, p)) && Stamp(t, p).snd == t.snd && SameSizes(t, Stamp(t, p))
  {
    hide SndOk, CcOk;
  }

  lemma AnswerKeepsSizes(t: Tcb, p: Packet, now: nat, w: Writer)
    requires Wf(t) && Unsent(t.snd) == 0 && t.state.Established? && p.ack == t.snd.una && p.data != []
    ensures SameSizes(t, Answer(t, p, true, now, w).1)
  {
    StampKeepsSizes(t, p);
    var u := Stamp(t, p);
    OldNewsSetsWindow(u, p, now, w);
    var x := Acknowledge(u, p, now, w).t;
    AfterAckKeepsSizes(x);
    hide Stamp, Payload, Acknowledge, AfterAck, WindowOf, Keeps, CcOk, Segs;
    PayloadKeepsSizes(AfterAck(x, true), p, now, w);
  }

  lemma LateRenegotiates(t: Tcb)
    requires Open(t, true)
    ensures var c := Control(t, LATE);
            && c == Accept(c.t, true) && c.t.state.Established? && !Steady(c.t.state, c.t.cc)
            && c.t.snd == t.snd.(scale := 0)
  {
    assert LATE.data[1..] == [];
    assert Renegotiates(t, LATE);
    ControlKeepsSteadyExactly(t, LATE);
  }

  lemma LateHandled(t: Tcb)
    requires Open(t, true)
    ensures var u := Handle(t, LATE, 1, TAKES_ALL).1; u.state.Established? && !Steady(u.state, u.cc)
  {
    hide SndOk, Quiet, Answer;
    LateRenegotiates(t);
    var c := Control(t, LATE);
    hide Control, Renegotiates, Keeps;
    AnswerKeepsSizes(c.t, LATE, 1, TAKES_ALL);
  }

  lemma ReceivedIsOpen(t: Tcb)
    requires Open(t, true)
    ensures Open(Received(t, 1), true)
  {
  }

  lemma LateUnsteers(t: Tcb)
    requires Open(t, true)
    ensures var u := Process(t, LATE, 1, TAKES_ALL).1; u.state.Established? && !Steady(u.state, u.cc)
  {
    ReceivedIsOpen(t);
    ProcessHandles(t, LATE, 1, TAKES_ALL);
    hide Handle, Process;
    LateHandled(Received(t, 1));
  }

  /** A run at whose end the connection is steady, until one connect message without options takes
      the threshold below two segments. */
  lemma RenegotiationUnsteers() returns (t: Tcb, u: Tcb)
    ensures Wf(t) && Wf(u) && t.state.Established? && u.state.Established?
    ensures Steady(t.state, t.cc) && !Steady(u.state, u.cc)
    ensures Ends(Opening(true), t) && Ends(Opening(true) + [Arrives(LATE, 1, TAKES_ALL)], u)
  {
    t := RunOpens(true);
    hide Ends, Then, Opening, Process, SndOk;
    LateUnsteers(t);
    ThenProcesses(t, Arrives(LATE, 1, TAKES_ALL));
    RunGoesOn(Opening(true), t, Arrives(LATE, 1, TAKES_ALL));
    u := Then(t, Arrives(LATE, 1, TAKES_ALL));
  }

  // ---- A deadline out of reach ----

  /** The connect message and one byte are in flight, sent at 1. */
  ghost predicate Flying(t: Tcb) {
    && Ordinary(t, false) && t.state.Established?
    && t.snd.nxt == 5 && t.snd.buf.len == 5 && t.snd.wnd == 100 && t.rcv.nxt == 4 && t.cc.mss == 65419
    && t.tm.lastsend == 1 && t.tm.rtoBase == 1 && InFront(t.snd)
  }

  lemma ByteFlies(t: Tcb)
    requires Open(t, false)
    ensures Flying(Send(t, BYTE, 1, TAKES_ALL).1)
  {
    QueuedByte(t, false);
    hide Available, NextLength, Queued, AttemptSend, Quiet, SndOk, CcOk;
    AttemptSendsAll(Queued(t, BYTE), None, 1, TAKES_ALL);
  }

  /** The peer has the connect message, and no room for the byte. */
  const SHUT: Packet := Packet(0, 4, 4, 0, 0, 0, 0, [])

  /** About half the range of the 32-bit clock after 1. */
  const FAR: nat := 0x8000_0000 + 1000

  ghost predicate ShutOut(t: Tcb) {
    && Wf(t) && !t.halted && t.state.Established? && t.snd.wnd == 0
    && t.tm.lastsend == 1 && t.tm.rtoBase == FAR && t.tm.rto == DEF_RTO && t.tm.lastrecv == FAR
  }

  /** After the packet's acknowledgment. */
  ghost predicate Shutting(t: Tcb) {
    && ShutOut(t) && !t.writeEnable && t.rcv.nxt == 4 && t.snd.una + t.snd.buf.len == t.snd.nxt
  }

  lemma ShutAcknowledges(t: Tcb)
    requires Flying(t) && t.tm.lastrecv == FAR
    ensures var r := NewAck(t, SHUT, FAR, TAKES_ALL);
            r.Fine? && Shutting(r.t)
  {
    hide Retransmit, Quiet, Segs, CcOk;
  }

  lemma ShutDelivers(t: Tcb)
    requires Shutting(t)
    ensures ShutOut(Payload(t, SHUT, FAR, TAKES_ALL).1)
  {
    assert ArriveAt(t, SHUT) == Arrival(t.rcv, true, false, false, false);
    AttemptSendsNothing(t, None, FAR, TAKES_ALL);
    hide ArriveAt, AttemptSend, Quiet, SndOk, CcOk;
  }

  lemma ShutHandled(t: Tcb)
    requires Flying(t) && t.tm.lastrecv == FAR
    ensures ShutOut(Handle(t, SHUT, FAR, TAKES_ALL).1)
  {
    StampKeepsSizes(t, SHUT);
    assert Flying(Stamp(t, SHUT));
    ShutAcknowledges(Stamp(t, SHUT));
    var u := Acknowledge(Stamp(t, SHUT), SHUT, FAR, TAKES_ALL).t;
    assert AfterAck(u, false) == u;
    hide Control, Stamp, NewAck, Payload, AfterAck, Quiet, SndOk, CcOk, Keeps;
    ShutDelivers(u);
  }

  lemma ShutArrives(t: Tcb)
    requires Flying(t)
    ensures ShutOut(Process(t, SHUT, FAR, TAKES_ALL).1)
  {
    assert Flying(Received(t, FAR));
    ProcessHandles(t, SHUT, FAR, TAKES_ALL);
    hide Handle, Process;
    ShutHandled(Received(t, FAR));
  }

  /** The clock comes back after half of its range. */
  const BACK: nat := 0x1_0000_0000 + 5000

  lemma ShutOutLosesTrack(t: Tcb)
    requires ShutOut(t)
    ensures LosesTrack(t, BACK)
    ensures var u := NotifyClock(t, BACK, TAKES_ALL); !u.state.Closed? && !NothingDue(u, BACK)
  {
    assert TimeDiff32(FAR + DEF_RTO, BACK) == 0x8000_0000 - 1000;
    assert TimeDiff32(1 + DEF_RTO, BACK) == -1999;
    assert TimeDiff32(BACK, FAR) < 15000;
    hide Quiet, SndOk, CcOk, SendAck, AckOnTime, TimeDiff32;
    assert RetransmitOnTimeout(t, BACK, TAKES_ALL) == Fine(t);
    var r := Probe(t, BACK, TAKES_ALL);
    assert r.Fine? && r.t.state == t.state;
    DeadlinesLieAhead(t, BACK, TAKES_ALL);
  }

  /** A run at whose end the clock serves a probe and leaves behind it the deadline of the
      retransmission: a peer without room acknowledges a part of what is in flight, and then
      the clock is not called for half of its range. */
  lemma DeadlineFallsBehind() returns (t: Tcb)
    ensures Wf(t) && !t.halted && LosesTrack(t, BACK)
    ensures var u := NotifyClock(t, BACK, TAKES_ALL); !u.state.Closed? && !NothingDue(u, BACK)
    ensures Ends(Opening(false) + [DoSend(BYTE, 1, TAKES_ALL)] + [Arrives(SHUT, FAR, TAKES_ALL)], t)
  {
    t := RunOpens(false);
    hide Ends, Then, Opening, Process, Send, NotifyClock, NothingDue, LosesTrack;
    ByteFlies(t);
    ThenIs(t, 1, TAKES_ALL, BYTE);
    RunGoesOn(Opening(false), t, DoSend(BYTE, 1, TAKES_ALL));
    t := Then(t, DoSend(BYTE, 1, TAKES_ALL));
    ShutArrives(t);
    ThenProcesses(t, Arrives(SHUT, FAR, TAKES_ALL));
    RunGoesOn(Opening(false) + [DoSend(BYTE, 1, TAKES_ALL)], t, Arrives(SHUT, FAR, TAKES_ALL));
    t := Then(t, Arrives(SHUT, FAR, TAKES_ALL));
    ShutOutLosesTrack(t);
  }
}
