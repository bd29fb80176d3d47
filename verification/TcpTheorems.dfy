/** What the transport promises, for every run of two endpoints over an unreliable network. */
module TcpTheorems {
  import opened FifoBuffers
  import opened TcpSegments
  import opened TcpTypes
  import opened TcpSender
  import opened TcpReceiver
  import opened TcpEndpoint
  import opened TcpLink
  import opened TcpReassembly
  import opened TcpDelivery
  import opened TcpSystem

  /** The state after any steps from any start. */
  lemma ReachableIsCoherent(s: Sys, steps: seq<Step>)
    requires Initial(s)
    ensures SysWf(s)
    ensures var u := Run(s, steps); Coherent(u.a, u.b) && Coherent(u.b, u.a)
  {
    InitialIsCoherent(s);
    RunKeepsCoherent(s, steps);
  }

  lemma GotIsPrefix(x: Half, y: Half)
    requires Coherent(x, y) && y.t.shutdown.NoShutdown?
    ensures y.got <= x.sent
    ensures y.t.rcv.nxt != 0 ==> CONNECT <= y.t.rcv.nxt <= CONNECT + |x.sent|
                                 && y.got + y.t.rcv.buf.Data() == x.sent[..y.t.rcv.nxt - CONNECT]
  {
    assert InOrder(y.t.rcv, Stream(x), y.got);
    StreamCarries(x);
    InOrderIsPrefix(y.t.rcv, Stream(x), x.sent, y.got);
  }

  lemma InOrderIsPrefix(r: Rcv, st: seq<byte>, sent: seq<byte>, got: seq<byte>)
    requires InOrder(r, st, got) && Carries(st, sent)
    ensures got <= sent
    ensures r.nxt != 0 ==> CONNECT <= r.nxt <= CONNECT + |sent|
                           && got + r.buf.Data() == sent[..r.nxt - CONNECT]
  {
    if r.nxt != 0 {
      assert st[CONNECT..r.nxt] == st[CONNECT..][..r.nxt - CONNECT];
    }
  }

  /** End to end: whatever is lost, repeated, delayed or reordered, and however the writes end,
      the bytes `Receive` has returned at an endpoint that has not been closed are a prefix of
      the bytes `Send` has accepted at the other. */
  lemma EndToEnd(s: Sys, steps: seq<Step>)
    requires Initial(s)
    ensures SysWf(s)
    ensures var u := Run(s, steps);
            && (u.b.t.shutdown.NoShutdown? ==> u.b.got <= u.a.sent)
            && (u.a.t.shutdown.NoShutdown? ==> u.a.got <= u.b.sent)
  {
    ReachableIsCoherent(s, steps);
    var u := Run(s, steps);
    if u.b.t.shutdown.NoShutdown? { GotIsPrefix(u.a, u.b); }
    if u.a.t.shutdown.NoShutdown? { GotIsPrefix(u.b, u.a); }
  }

  lemma NothingLeftHasArrived(x: Half, y: Half)
    requires Coherent(x, y) && y.t.shutdown.NoShutdown? && x.sent != [] && x.t.snd.buf.len == 0
    ensures y.t.rcv.buf.Valid() && y.got + y.t.rcv.buf.Data() == x.sent
  {
    GotIsPrefix(x, y);
    SentIsReceived(x.t.snd, y.t.rcv);
    assert y.t.rcv.nxt == |Stream(x)| == CONNECT + |x.sent|;
  }

  lemma SentIsReceived(s: Snd, r: Rcv)
    requires SndOk(s) && Flow(s, r) && s.buf.len == 0
    ensures r.nxt == s.una
  {
    EndIsLast(s.slist, s.una, s.nxt, s.una);
  }

  /** When everything that `x` sent has been acknowledged, everything has arrived at `y`. */
  ghost predicate ArrivedOnceAcknowledged(x: Half, y: Half) {
    y.t.shutdown.NoShutdown? && x.sent != [] && x.t.snd.buf.len == 0 ==>
      && y.t.rcv.buf.Valid()
      && y.got + y.t.rcv.buf.Data() == x.sent
  }

  lemma AcknowledgedHasArrived(s: Sys, steps: seq<Step>)
    requires Initial(s)
    ensures SysWf(s)
    ensures var u := Run(s, steps);
            ArrivedOnceAcknowledged(u.a, u.b) && ArrivedOnceAcknowledged(u.b, u.a)
  {
    ReachableIsCoherent(s, steps);
    var u := Run(s, steps);
    if u.b.t.shutdown.NoShutdown? && u.a.sent != [] && u.a.t.snd.buf.len == 0 {
      NothingLeftHasArrived(u.a, u.b);
    }
    if u.a.t.shutdown.NoShutdown? && u.b.sent != [] && u.b.t.snd.buf.len == 0 {
      NothingLeftHasArrived(u.b, u.a);
    }
  }

  /** Byte `j` of the stream `st` waits in the send buffer. */
  ghost predicate Kept(s: Snd, st: seq<byte>, j: nat) {
    && s.una <= j < |st|
    && j - s.una < s.buf.len <= |s.buf.slots|
    && s.buf.slots[j - s.una] == st[j]
  }

  lemma UnacknowledgedIsKept(s: Snd, st: seq<byte>, j: nat)
    requires SenderOk(s, st) && s.una <= j < |st|
    ensures Kept(s, st, j)
  {
    assert s.buf.Data()[j - s.una] == st[s.una..][j - s.una];
  }

  /** No byte from `x` to `y` is lost: what `y` still misses is in the buffer of `x`, at its
      distance from the first unacknowledged byte. */
  ghost predicate NothingLost(x: Half, y: Half) {
    && x.t.snd.una <= y.t.rcv.nxt <= x.t.snd.nxt
    && forall j :: y.t.rcv.nxt <= j < |Stream(x)| ==> Kept(x.t.snd, Stream(x), j)
  }

  lemma CoherentLosesNothing(x: Half, y: Half)
    requires Coherent(x, y)
    ensures NothingLost(x, y)
  {
    forall j | y.t.rcv.nxt <= j < |Stream(x)| ensures Kept(x.t.snd, Stream(x), j) {
      UnacknowledgedIsKept(x.t.snd, Stream(x), j);
    }
  }

  lemma MissingBytesAreKept(s: Sys, steps: seq<Step>)
    requires Initial(s)
    ensures SysWf(s)
    ensures var u := Run(s, steps); NothingLost(u.a, u.b) && NothingLost(u.b, u.a)
  {
    ReachableIsCoherent(s, steps);
    var u := Run(s, steps);
    CoherentLosesNothing(u.a, u.b);
    CoherentLosesNothing(u.b, u.a);
  }

  /** Flow control from `x` to `y`: what is in flight stays within what the receiver has offered
      and has room for, so no assertion of the source fails; every segment's number is its
      position, so every acknowledgment ends a segment; and every packet on its way fits. */
  ghost predicate FlowControlled(x: Tcb, y: Tcb) {
    && !x.halted && !y.halted && y.rcv.buf.Valid()
    && x.snd.nxt <= Edge(y.rcv) && x.snd.una + x.snd.wnd <= Edge(y.rcv)
    && y.rcv.wnd <= y.rcv.buf.Free()
    && Exact(x.snd.slist, x.snd.una)
    && (forall p :: p in y.io.out ==> Boundary(x.snd, p.ack) && p.ack <= x.snd.nxt)
    && (forall p :: p in x.io.out ==> Fits(y.rcv, p, HasCtl(p.flags) || !y.shutdown.NoShutdown?))
  }

  lemma CoherentIsControlled(x: Half, y: Half)
    requires Coherent(x, y)
    ensures FlowControlled(x.t, y.t)
  {
    forall p | p in y.t.io.out ensures Boundary(x.t.snd, p.ack) && p.ack <= x.t.snd.nxt {
      assert AckOk(p, x.t.snd, y.t.rcv);
    }
    forall p | p in x.t.io.out ensures Fits(y.t.rcv, p, HasCtl(p.flags) || !y.t.shutdown.NoShutdown?) {
      assert PacketOk(p, x.t.conv, x.t.snd, Stream(x));
      hide Arrive, PacketOk, Fits;
      ArriveKeepsFlow(x.t.snd, y.t.rcv, p, x.t.conv, Stream(x), HasCtl(p.flags) || !y.t.shutdown.NoShutdown?);
    }
  }

  lemma FlowControl(s: Sys, steps: seq<Step>)
    requires Initial(s)
    ensures SysWf(s)
    ensures var u := Run(s, steps); FlowControlled(u.a.t, u.b.t) && FlowControlled(u.b.t, u.a.t)
  {
    ReachableIsCoherent(s, steps);
    var u := Run(s, steps);
    CoherentIsControlled(u.a, u.b);
    CoherentIsControlled(u.b, u.a);
  }

  /** `p` takes whole segments off the list. */
  ghost predicate AcksWholeSegments(s: Snd, p: Packet) {
    s.una < p.ack ==>
      && p.ack <= s.nxt
      && forall e :: e in AckFree(s.slist, p.ack - s.una, 0).0 ==> e in s.slist
  }

  lemma BoundaryAcksWholeSegments(s: Snd, st: seq<byte>, r: Rcv, p: Packet)
    requires SenderOk(s, st) && Flow(s, r) && AckOk(p, s, r)
    ensures AcksWholeSegments(s, p)
  {
    if s.una < p.ack {
      AckFreeIsSuffix(s.slist, s.una, s.nxt, s.una + s.buf.len, p.ack - s.una, 0);
    }
  }

  /** A partial acknowledgment, which leaves part of the front segment, does not occur. */
  lemma NoPartialAcknowledgment(s: Sys, steps: seq<Step>, p: Packet)
    requires Initial(s)
    ensures SysWf(s)
    ensures var u := Run(s, steps);
            && (p in u.b.t.io.out ==> AcksWholeSegments(u.a.t.snd, p))
            && (p in u.a.t.io.out ==> AcksWholeSegments(u.b.t.snd, p))
  {
    ReachableIsCoherent(s, steps);
    var u := Run(s, steps);
    if p in u.b.t.io.out {
      assert AckOk(p, u.a.t.snd, u.b.t.rcv);
      BoundaryAcksWholeSegments(u.a.t.snd, Stream(u.a), u.b.t.rcv, p);
    }
    if p in u.a.t.io.out {
      assert AckOk(p, u.b.t.snd, u.a.t.rcv);
      BoundaryAcksWholeSegments(u.b.t.snd, Stream(u.b), u.a.t.rcv, p);
    }
  }

  /** Every step moves the edge of the receive window forward only, and `nxt` with it. */
  lemma EdgeNeverRecedes(s: Sys, steps: seq<Step>, step: Step)
    requires Initial(s)
    ensures SysWf(s)
    ensures var u := Run(s, steps);
            var v := Next(u, step);
            Forward(u.a.t.rcv, v.a.t.rcv) && Forward(u.b.t.rcv, v.b.t.rcv)
  {
    ReachableIsCoherent(s, steps);
    var u := Run(s, steps);
    match step
    case OfA(op) => if Legal(u.b.t, op) { ActMovesForward(u.a, u.b, op); }
    case OfB(op) => if Legal(u.a.t, op) { ActMovesForward(u.b, u.a, op); }
  }

  lemma ActMovesForward(x: Half, y: Half, op: Op)
    requires Coherent(x, y) && Legal(y.t, op)
    ensures Forward(x.t.rcv, Act(x, op).t.rcv)
  {
    hide Process, Receive;
    if op.Arrives? {
      ProcessKeepsCoupled(x.t, y.t, Stream(x), x.got, Stream(y), y.got, op.p, op.now, op.w);
    } else if op.DoReceive? {
      ReceiveKeepsCoupled(x.t, y.t, Stream(x), x.got, Stream(y), y.got, op.n, op.now, op.w);
    }
  }

  /** Stored stretch `k` is in order, fits the free space, lies behind the first missing byte,
      and has byte `j` of the stream at its distance from it. */
  ghost predicate StoredInPlace(r: Rcv, st: seq<byte>, k: nat, j: nat)
    requires k < |r.rlist|
  {
    var e := r.rlist[k];
    && r.buf.Valid()
    && r.nxt < e.seqno && e.seqno + e.len <= r.nxt + r.buf.Free()
    && (k + 1 < |r.rlist| ==> e.seqno <= r.rlist[k + 1].seqno)
    && (e.seqno <= j < e.seqno + e.len ==> j < |st| && r.buf.slots[r.buf.len + j - r.nxt] == st[j])
  }

  lemma ContentIsInPlace(r: Rcv, st: seq<byte>, got: seq<byte>, k: nat, j: nat)
    requires Content(r, st, got) && k < |r.rlist|
    ensures StoredInPlace(r, st, k, j)
  {
    assert Holds(r, st, r.rlist[k]);
  }

  /** Reassembly at `y` of what comes from `x`, until `y` is closed. */
  ghost predicate Reassembles(x: Half, y: Half, k: nat, j: nat) {
    y.t.shutdown.NoShutdown? && k < |y.t.rcv.rlist| ==> StoredInPlace(y.t.rcv, Stream(x), k, j)
  }

  lemma ReassemblyHolds(s: Sys, steps: seq<Step>, k: nat, j: nat)
    requires Initial(s)
    ensures SysWf(s)
    ensures var u := Run(s, steps); Reassembles(u.a, u.b, k, j) && Reassembles(u.b, u.a, k, j)
  {
    ReachableIsCoherent(s, steps);
    var u := Run(s, steps);
    if u.b.t.shutdown.NoShutdown? && k < |u.b.t.rcv.rlist| {
      ContentIsInPlace(u.b.t.rcv, Stream(u.a), u.b.got, k, j);
    }
    if u.a.t.shutdown.NoShutdown? && k < |u.a.t.rcv.rlist| {
      ContentIsInPlace(u.a.t.rcv, Stream(u.b), u.a.got, k, j);
    }
  }
}
