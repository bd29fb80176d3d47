/** The sending end of a direction: whatever is sent, sent again, cut smaller or acknowledged,
    packets carry the stream at their place and nothing passes the receiver's edge. */
module TcpDelivery {
  import opened Numbers
  import opened FifoBuffers
  import opened TcpSegments
  import opened TcpTypes
  import opened TcpSender
  import opened TcpReceiver
  import opened TcpEndpoint
  import opened TcpLink

  /** The sender moves on; what was a boundary of transmitted data stays one. */
  ghost predicate Grows(a: Snd, b: Snd) {
    && a.nxt <= b.nxt && a.una <= b.una
    && forall c: nat {:trigger Boundary(b, c)} :: c <= a.nxt && Boundary(a, c) ==> Boundary(b, c)
  }

  ghost predicate SentWithin(s: Snd, r: Rcv) {
    && s.una <= r.nxt && s.nxt <= Edge(r) && s.una + s.wnd <= Edge(r)
    && (s.scale == 0 || s.scale == r.scale)
    && (s.nxt == 0 && s.slist != [] ==> CONNECT <= s.wnd)
  }

  lemma GrownPackets(out: seq<Packet>, conv: nat, a: Snd, b: Snd, st: seq<byte>, su: seq<byte>)
    requires PacketsOk(out, conv, a, st) && Grows(a, b) && st <= su && b.nxt <= |su|
    ensures PacketsOk(out, conv, b, su)
  {
    forall k | 0 <= k < |out| ensures PacketOk(out[k], conv, b, su) {
      var p := out[k];
      assert PacketOk(p, conv, a, st);
      if p.data != [] {
        assert su[p.seqno..p.seqno + |p.data|] == st[p.seqno..p.seqno + |p.data|];
      }
    }
  }

  /** The rest of a link follows when the sender's own part holds again. */
  lemma GrownLink(s: Tcb, u: Tcb, r: Tcb, st: seq<byte>, su: seq<byte>, got: seq<byte>)
    requires Link(s, r, st, got) && Grows(s.snd, u.snd) && st <= su
    requires SenderOk(u.snd, su) && Started(u, su) && SentWithin(u.snd, r.rcv)
    requires PacketsOk(u.io.out, u.conv, u.snd, su)
    ensures Link(u, r, su, got)
  {
    assert AcksOk(r.io.out, u.snd, r.rcv) by {
      forall k | 0 <= k < |r.io.out| ensures AckOk(r.io.out[k], u.snd, r.rcv) {
        assert AckOk(r.io.out[k], s.snd, r.rcv);
      }
    }
    if r.shutdown.NoShutdown? {
      PrefixKeepsContent(r.rcv, st, su, got);
    }
  }

  lemma PrefixKeepsContent(r: Rcv, st: seq<byte>, su: seq<byte>, got: seq<byte>)
    requires Content(r, st, got) && st <= su
    ensures Content(r, su, got)
  {
    if r.nxt != 0 {
      assert su[CONNECT..r.nxt] == st[CONNECT..r.nxt];
    }
    forall k | 0 <= k < |r.rlist| ensures Holds(r, su, r.rlist[k]) {
      assert Holds(r, st, r.rlist[k]);
    }
  }

  // ---- Cutting and marking segments ----

  lemma SplitKeepsConnect(l: seq<SSegment>, i: nat, n: nat)
    requires ConnectIsWhole(l) && i < |l| && n <= l[i].len && !l[i].ctrl
    ensures ConnectIsWhole(SplitAt(l, i, n))
  {
    var r := SplitAt(l, i, n);
    forall k | 0 <= k < |r|
      ensures (r[k].ctrl <==> r[k].seqno < CONNECT) && (r[k].ctrl ==> r[k].seqno == 0 && r[k].len == CONNECT)
    {
      if k < i { assert r[k] == l[k]; }
      else if k > i + 1 { assert r[k] == l[k - 1]; }
    }
  }

  lemma MarkKeepsConnect(l: seq<SSegment>, i: nat, n: nat)
    requires ConnectIsWhole(l) && i < |l| && n <= l[i].len && (l[i].ctrl ==> n == l[i].len)
    ensures ConnectIsWhole(MarkSent(l, i, n))
  {
    if n < l[i].len {
      SplitKeepsConnect(l, i, n);
    }
  }

  lemma MarkGrows(s: Snd, i: nat, n: nat)
    requires SndOk(s) && i < |s.slist| && n <= s.slist[i].len
    ensures Grows(s, Mark(s, i, n))
  {
    var u := Mark(s, i, n);
    forall c: nat {:trigger Boundary(u, c)} | c <= s.nxt && Boundary(s, c) ensures Boundary(u, c) {
      if c > s.una {
        MarkKeepsCut(s.slist, s.una, i, n, c);
      }
    }
  }

  /** The position of a transmittable segment. */
  lemma TransmittableAt(s: Snd, st: seq<byte>, i: nat)
    requires SenderOk(s, st) && Transmittable(s, i)
    ensures var e := s.slist[i];
            && s.una <= e.seqno && e.seqno + e.len <= |st|
            && (e.xmit == 0 ==> e.seqno == s.nxt)
            && (e.xmit > 0 ==> e.seqno + e.len <= s.nxt)
  {
    if i == FirstUnsent(s.slist) {
      UnsentFits(s.slist, s.una, s.nxt, s.una + s.buf.len, i);
      EndIsLast(s.slist, s.una, s.nxt, s.una + s.buf.len);
    } else {
      FrontInFlight(s.slist, s.una, s.nxt, s.una + s.buf.len);
    }
  }

  lemma MarkKeepsSender(s: Snd, st: seq<byte>, i: nat, n: nat)
    requires SenderOk(s, st) && Transmittable(s, i) && 0 < n <= s.slist[i].len
    requires s.slist[i].ctrl ==> n == CONNECT
    ensures var u := Mark(s, i, n);
            && SenderOk(u, st) && Grows(s, u)
            && s.slist[i].seqno + n <= u.nxt
            && u.nxt == (if s.slist[i].xmit == 0 then s.nxt + n else s.nxt)
            && Boundary(u, s.slist[i].seqno + n)
  {
    TransmittableAt(s, st, i);
    MarkOk(s, i, n);
    MarkGrows(s, i, n);
    MarkKeepsExact(s.slist, s.una, i, n);
    MarkKeepsConnect(s.slist, i, n);
    MarkCuts(s.slist, s.una, i, n);
    EndIsLast(Mark(s, i, n).slist, s.una, Mark(s, i, n).nxt, s.una + s.buf.len);
  }

  // ---- transmit ----

  /** `out` with one packet more: `n` bytes of segment `e`. */
  ghost predicate OneMore(t: Tcb, e: SSegment, n: nat, out: seq<Packet>)
    requires t.snd.buf.Valid() && t.snd.una <= e.seqno && e.seqno - t.snd.una + n <= t.snd.buf.len
  {
    && |out| == |t.io.out| + 1 && out[..|t.io.out|] == t.io.out
    && var p := out[|t.io.out|];
    && p.conv == t.conv && p.seqno == e.seqno
    && p.flags == (if e.ctrl then FLAG_CTL else 0)
    && p.data == t.snd.buf.Peek(n, e.seqno - t.snd.una)
  }

  lemma SendOnceOut(t: Tcb, e: SSegment, n: nat, now: nat, w: Writer)
    requires t.snd.buf.Valid() && CcOk(t.cc)
    requires t.snd.una <= e.seqno && e.seqno - t.snd.una + n <= t.snd.buf.len
    requires 0 < n
    ensures var (res, u) := SendOnce(t, e, n, now, w);
            if res.Success? then OneMore(t, e, n, u.io.out) else u.io.out == t.io.out
  {
  }

  lemma SameOneMore(t: Tcb, u: Tcb, e: SSegment, n: nat, out: seq<Packet>)
    requires t.snd.buf.Valid() && t.snd.una <= e.seqno && e.seqno - t.snd.una + n <= t.snd.buf.len
    requires u.snd == t.snd && u.io.out == t.io.out && u.conv == t.conv && OneMore(u, e, n, out)
    ensures OneMore(t, e, n, out)
  {
  }

  /** At most one packet goes out, and only when it was taken; the connect message is never
      cut, as every segment size is at least its length. */
  lemma {:induction false} SendLoopOut(t: Tcb, e: SSegment, n: nat, now: nat, w: Writer)
    requires t.snd.buf.Valid() && CcOk(t.cc)
    requires 0 < n <= e.len && t.snd.una <= e.seqno && e.seqno - t.snd.una + n <= t.snd.buf.len
    ensures var r := SendLoop(t, e, n, now, w);
            && (r.Refused? ==> r.t.io.out == t.io.out)
            && (r.Sent? ==> OneMore(t, e, r.n, r.t.io.out) && (n <= CONNECT ==> r.n == n))
    decreases LAST_LEVEL - t.cc.level
  {
    hide OneMore, SendOnce, Fallback;
    SendOnceOut(t, e, n, now, w);
    var (res, t1) := SendOnce(t, e, n, now, w);
    if res.TooLarge? {
      var (lower, t2) := Fallback(t1, n);
      if lower {
        SendLoopOut(t2, e, t2.cc.mss, now, w);
        var r := SendLoop(t2, e, t2.cc.mss, now, w);
        if r.Sent? {
          SameOneMore(t, t2, e, r.n, r.t.io.out);
        }
      }
    }
  }

  /** What handing segment `i` to the network comes to. */
  function Attempt(t: Tcb, i: nat, now: nat, w: Writer): (r: Sending)
    requires Wf(t) && Transmittable(t.snd, i)
  {
    SegmentFits(t.snd, i);
    SendLoop(t, t.snd.slist[i], Min(t.snd.slist[i].len, t.cc.mss), now, w)
  }

  /** What `transmit` does to the send list and to the network. */
  lemma TransmitOut(t: Tcb, st: seq<byte>, i: nat, now: nat, w: Writer)
    requires Wf(t) && Roomy(t.cc) && SenderOk(t.snd, st) && Transmittable(t.snd, i)
    ensures var (ok, u) := Transmit(t, i, now, w);
            var (e, r) := (t.snd.slist[i], Attempt(t, i, now, w));
            && t.snd.una <= e.seqno && e.seqno + e.len <= |st|
            && (!ok ==> u.snd == t.snd && u.io.out == t.io.out)
            && (ok ==> r.Sent? && r.n <= e.len && (e.len == CONNECT ==> r.n == CONNECT)
                       && u.snd == Mark(t.snd, i, r.n) && OneMore(t, e, r.n, u.io.out))
  {
    var e := t.snd.slist[i];
    TransmittableAt(t.snd, st, i);
    SendLoopOut(t, e, Min(e.len, t.cc.mss), now, w);
    hide OneMore, SendLoop, Wf, Sends, Tries;
  }

  lemma SentPacketOk(t: Tcb, s: Snd, st: seq<byte>, e: SSegment, p: Packet, conv: nat, n: nat)
    requires SenderOk(s, st) && s.una <= e.seqno && 0 < n && e.seqno + n <= s.nxt && Boundary(s, e.seqno + n)
    requires (e.ctrl <==> e.seqno < CONNECT) && (e.ctrl ==> e.seqno == 0 && n == CONNECT)
    requires p.conv == conv && p.seqno == e.seqno && p.flags == (if e.ctrl then FLAG_CTL else 0)
    requires p.data == s.buf.Peek(n, e.seqno - s.una)
    ensures PacketOk(p, conv, s, st)
  {
    var o := e.seqno - s.una;
    assert s.buf.Peek(n, o) == s.buf.Data()[o..o + n];
    assert st[s.una..][o..o + n] == st[e.seqno..e.seqno + n];
  }

  lemma OneMorePacketOk(t: Tcb, u: Tcb, st: seq<byte>, i: nat, n: nat)
    requires SenderOk(t.snd, st) && PacketsOk(t.io.out, t.conv, t.snd, st)
    requires Transmittable(t.snd, i) && 0 < n <= t.snd.slist[i].len
    requires t.snd.slist[i].len == CONNECT ==> n == CONNECT
    requires t.snd.una <= t.snd.slist[i].seqno && t.snd.slist[i].seqno + n <= |st|
    requires u.snd == Mark(t.snd, i, n) && OneMore(t, t.snd.slist[i], n, u.io.out) && u.conv == t.conv
    ensures SenderOk(u.snd, st) && Grows(t.snd, u.snd) && PacketsOk(u.io.out, u.conv, u.snd, st)
    ensures u.snd.nxt == if t.snd.slist[i].xmit == 0 then t.snd.nxt + n else t.snd.nxt
  {
    MarkKeepsSender(t.snd, st, i, n);
    GrownPackets(t.io.out, t.conv, t.snd, u.snd, st, st);
    SentPacketOk(t, u.snd, st, t.snd.slist[i], u.io.out[|t.io.out|], t.conv, n);
    hide PacketOk, SenderOk, Grows;
    forall k | 0 <= k < |u.io.out| ensures PacketOk(u.io.out[k], u.conv, u.snd, st) {
      if k < |t.io.out| {
        assert u.io.out[k] == u.io.out[..|t.io.out|][k];
      }
    }
  }

  lemma OneMoreKeepsLink(t: Tcb, u: Tcb, r: Tcb, st: seq<byte>, got: seq<byte>, i: nat, n: nat)
    requires Link(t, r, st, got) && Transmittable(t.snd, i) && 0 < n <= t.snd.slist[i].len
    requires t.snd.slist[i].xmit == 0 ==> t.snd.nxt + n <= Edge(r.rcv)
    requires t.snd.slist[i].len == CONNECT ==> n == CONNECT
    requires t.snd.una <= t.snd.slist[i].seqno && t.snd.slist[i].seqno + n <= |st|
    requires u.snd == Mark(t.snd, i, n) && OneMore(t, t.snd.slist[i], n, u.io.out)
    requires Started(u, st) && u.conv == t.conv
    ensures Link(u, r, st, got)
  {
    OneMorePacketOk(t, u, st, i, n);
    hide PacketsOk, AcksOk, Ranges, Content, SenderOk, Grows, OneMore;
    GrownLink(t, u, r, st, st, got);
  }

  lemma SameLink(t: Tcb, u: Tcb, r: Tcb, st: seq<byte>, got: seq<byte>)
    requires Link(t, r, st, got)
    requires u.snd == t.snd && u.io.out == t.io.out && u.conv == t.conv && Started(u, st)
    ensures Link(u, r, st, got)
  {
  }

  lemma TransmitKeepsLink(t: Tcb, r: Tcb, st: seq<byte>, got: seq<byte>, i: nat, now: nat, w: Writer)
    requires Wf(t) && Link(t, r, st, got) && Transmittable(t.snd, i)
    requires t.snd.slist[i].xmit == 0 ==> t.snd.nxt + t.snd.slist[i].len <= Edge(r.rcv)
    ensures Link(Transmit(t, i, now, w).1, r, st, got)
  {
    var (ok, u) := Transmit(t, i, now, w);
    TransmitOut(t, st, i, now, w);
    if ok {
      OneMoreKeepsLink(t, u, r, st, got, i, Attempt(t, i, now, w).n);
    } else {
      SameLink(t, u, r, st, got);
    }
  }

  // ---- attemptSend ----

  /** Packets without payload say nothing about the stream. */
  lemma SendAckKeepsLink(t: Tcb, r: Tcb, st: seq<byte>, got: seq<byte>, seqno: nat, now: nat, w: Writer)
    requires t.snd.buf.Valid() && Link(t, r, st, got)
    ensures Link(SendAck(t, seqno, now, w), r, st, got)
  {
    var u := SendAck(t, seqno, now, w);
    forall k | 0 <= k < |u.io.out| ensures PacketOk(u.io.out[k], u.conv, u.snd, st) {
      assert k < |t.io.out| ==> u.io.out[k] == t.io.out[k];
    }
  }

  /** Until the connect message is under way, what may be sent next covers it. */
  lemma AvailableCoversConnect(t: Tcb, st: seq<byte>)
    requires Wf(t) && SenderOk(t.snd, st) && Available(t) > 0 && t.snd.nxt == 0
    requires CONNECT <= t.snd.wnd && Roomy(t.cc)
    ensures CONNECT <= Available(t)
  {
    EndIsLast(t.snd.slist, t.snd.una, t.snd.nxt, t.snd.una + t.snd.buf.len);
    assert InFlight(t) == 0;
    assert CONNECT <= Window(t) == Useable(t);
    assert CONNECT <= t.snd.buf.len;
  }

  lemma CutKeepsSender(s: Snd, st: seq<byte>, n: nat)
    requires SenderOk(s, st) && 0 < n <= s.una + s.buf.len - s.nxt
    requires s.nxt == 0 ==> CONNECT <= n
    ensures var k := FirstUnsent(s.slist);
            && k < |s.slist|
            && var u := s.(slist := CutTo(s.slist, k, n));
            && SenderOk(u, st) && Grows(s, u)
  {
    var k := FirstUnsent(s.slist);
    CutNextOk(s, n);
    if n < s.slist[k].len {
      UnsentFits(s.slist, s.una, s.nxt, s.una + s.buf.len, k);
      SplitKeepsConnect(s.slist, k, n);
      SplitKeepsExact(s.slist, s.una, k, n);
      SplitGrows(s, k, n);
    }
  }

  lemma SplitGrows(s: Snd, k: nat, n: nat)
    requires k < |s.slist| && n <= s.slist[k].len
    ensures Grows(s, s.(slist := SplitAt(s.slist, k, n)))
  {
    var u := s.(slist := SplitAt(s.slist, k, n));
    forall c: nat {:trigger Boundary(u, c)} | c <= s.nxt && Boundary(s, c) ensures Boundary(u, c) {
      if c > s.una {
        SplitKeepsCut(s.slist, s.una, k, n, c);
      }
    }
  }

  lemma CutNextKeepsLink(t: Tcb, r: Tcb, st: seq<byte>, got: seq<byte>)
    requires Wf(t) && Link(t, r, st, got) && Available(t) > 0
    ensures var u := CutNext(t, Available(t));
            var k := FirstUnsent(u.snd.slist);
            Link(u, r, st, got) && u.snd.nxt + u.snd.slist[k].len <= Edge(r.rcv)
  {
    hide AcksOk, PacketsOk, Content, Ranges, Grows;
    var n := Available(t);
    var u := CutNext(t, n);
    CutNextOk(t.snd, n);
    if t.snd.nxt == 0 {
      ConnectIsCovered(t, r, st, got);
    }
    CutKeepsSender(t.snd, st, n);
    GrownPackets(t.io.out, t.conv, t.snd, u.snd, st, st);
    GrownLink(t, u, r, st, st, got);
  }

  lemma ConnectIsCovered(t: Tcb, r: Tcb, st: seq<byte>, got: seq<byte>)
    requires Wf(t) && Link(t, r, st, got) && Available(t) > 0 && t.snd.nxt == 0
    ensures CONNECT <= Available(t)
  {
    UnsentExists(t.snd.slist, t.snd.una, t.snd.nxt, t.snd.una + t.snd.buf.len);
    AvailableCoversConnect(t, st);
  }

  lemma SendNextKeepsLink(t: Tcb, r: Tcb, st: seq<byte>, got: seq<byte>, now: nat, w: Writer)
    requires Wf(t) && Link(t, r, st, got) && Available(t) > 0
    ensures Link(SendNext(t, Available(t), now, w).1, r, st, got)
  {
    CutNextKeepsLink(t, r, st, got);
    var u := CutNext(t, Available(t));
    TransmitKeepsLink(u, r, st, got, FirstUnsent(u.snd.slist), now, w);
  }

  lemma FinishSendKeepsLink(t: Tcb, r: Tcb, st: seq<byte>, got: seq<byte>, flags: SendFlags, now: nat, w: Writer)
    requires t.snd.buf.Valid() && Link(t, r, st, got)
    ensures Link(FinishSend(t, flags, now, w), r, st, got)
  {
    SendAckKeepsLink(t, r, st, got, t.snd.nxt, now, w);
  }

  lemma TurnKeepsLink(t: Tcb, r: Tcb, st: seq<byte>, got: seq<byte>, flags: SendFlags, now: nat, w: Writer)
    requires Wf(t) && Link(t, r, st, got)
    ensures Link(Turn(t, flags, now, w).1, r, st, got)
  {
    var n := Available(t);
    if n == 0 {
      FinishSendKeepsLink(t, r, st, got, flags, now, w);
    } else if !NagleHolds(t, n) {
      SendNextKeepsLink(t, r, st, got, now, w);
    }
  }

  lemma {:induction false} AttemptLoopKeepsLink(t: Tcb, r: Tcb, st: seq<byte>, got: seq<byte>, flags: SendFlags,
                                                now: nat, w: Writer)
    requires Wf(t) && Link(t, r, st, got)
    ensures Link(AttemptLoop(t, flags, now, w), r, st, got)
    decreases Unsent(t.snd)
  {
    hide Turn, Link, Sends;
    var (done, u) := Turn(t, flags, now, w);
    TurnKeepsLink(t, r, st, got, flags, now, w);
    if !done {
      AttemptLoopKeepsLink(u, r, st, got, None, now, w);
    }
  }

  lemma AttemptSendKeepsLink(t: Tcb, r: Tcb, st: seq<byte>, got: seq<byte>, flags: SendFlags, now: nat, w: Writer)
    requires Wf(t) && Link(t, r, st, got)
    ensures Link(AttemptSend(t, flags, now, w), r, st, got)
  {
    SameLink(t, Restarted(t, now), r, st, got);
    hide Link, Restarted, AttemptLoop;
    AttemptLoopKeepsLink(Restarted(t, now), r, st, got, flags, now, w);
  }

  // ---- queue ----

  lemma EnlistKeepsConnect(l: seq<SSegment>, end: nat, len: nat, ctrl: bool)
    requires ConnectIsWhole(l) && (ctrl <==> end < CONNECT)
    requires ctrl ==> l == [] && end == 0 && len == CONNECT
    ensures ConnectIsWhole(Enlist(l, end, len, ctrl))
  {
  }

  lemma QueueKeepsSender(s: Snd, st: seq<byte>, data: seq<byte>, ctrl: bool)
    requires SenderOk(s, st) && |data| <= s.buf.Free()
    requires ctrl <==> st == []
    requires ctrl ==> s.slist == [] && |data| == CONNECT
    ensures SenderOk(Queue(s, data, ctrl), st + data) && Grows(s, Queue(s, data, ctrl))
  {
    var u := Queue(s, data, ctrl);
    assert data[..|data|] == data;
    QueueOk(s, data, ctrl);
    EndIsLast(s.slist, s.una, s.nxt, s.una + s.buf.len);
    EnlistKeeps(s.slist, s.una, s.nxt, |st|, |data|, ctrl);
    EnlistKeepsConnect(s.slist, |st|, |data|, ctrl);
    AppendAddsAtTheEnd(s.buf, data);
    assert (st + data)[s.una..] == st[s.una..] + data;
    forall c: nat {:trigger Boundary(u, c)} | c <= s.nxt && Boundary(s, c) ensures Boundary(u, c) {
      if c > s.una {
        EnlistKeepsCut(s.slist, s.una, s.nxt, |st|, |data|, ctrl, c);
      }
    }
  }

  lemma QueueDataKeepsLink(t: Tcb, r: Tcb, st: seq<byte>, got: seq<byte>, data: seq<byte>)
    requires Link(t, r, st, got) && st != []
    ensures var n := Min(|data|, t.snd.buf.Free());
            Link(t.(snd := Queue(t.snd, data, false)), r, st + data[..n], got)
  {
    var d := data[..Min(|data|, t.snd.buf.Free())];
    var u := t.(snd := Queue(t.snd, data, false));
    assert d[..|d|] == d;
    assert u.snd == Queue(t.snd, d, false);
    QueueKeepsSender(t.snd, st, d, false);
    GrownPackets(t.io.out, t.conv, t.snd, u.snd, st, st + d);
    GrownLink(t, u, r, st, st + d, got);
  }

  /** Leaving the state Listen, an endpoint queues its connect message. */
  lemma QueueConnectKeepsLink(t: Tcb, r: Tcb, st: seq<byte>, got: seq<byte>, state: State)
    requires Wf(t) && Link(t, r, st, got) && t.state.Listen? && (state.SentSyn? || state.ReceivedSyn?)
    ensures st == []
    ensures Link(Greet(t, state), r, ConnectMessage(t), got)
  {
    var m := ConnectMessage(t);
    var u := Greet(t, state);
    var s := t.snd.(wnd := CONNECT);
    assert t.snd.una == 0 && t.snd.nxt == 0;
    assert Grows(t.snd, s);
    QueueKeepsSender(s, [], m, true);
    assert [] + m == m;
    GrownPackets(t.io.out, t.conv, t.snd, u.snd, st, m);
    GrownLink(t, u, r, st, m, got);
  }

  // ---- Acknowledgments arrive ----

  /** The window a packet of the receiver announces, as the sender scales it. */
  lemma WindowOfIsPromised(p: Packet, s: Snd, r: Rcv)
    requires AckOk(p, s, r) && Flow(s, r)
    ensures p.ack + WindowOf(p, s.scale) <= Edge(r)
    ensures s.nxt == 0 ==> CONNECT <= WindowOf(p, s.scale)
  {
    assert Pow2(0) == 1;
    MulMono(1, Pow2(r.scale), p.wnd);
    assert p.wnd * Pow2(s.scale) <= p.wnd * Pow2(r.scale);
    WrapDecreases(p.wnd * Pow2(s.scale));
    if s.nxt == 0 {
      MulMono(1, Pow2(s.scale), p.wnd);
    }
  }

  lemma WrapDecreases(x: nat)
    ensures Wrap32(x) <= x && (x < U32 ==> Wrap32(x) == x)
  {
  }

  lemma NewWindowKeepsLink(t: Tcb, r: Tcb, st: seq<byte>, got: seq<byte>, p: Packet)
    requires Link(t, r, st, got) && AckOk(p, t.snd, r.rcv) && p.ack == t.snd.una
    ensures Link(t.(snd := t.snd.(wnd := WindowOf(p, t.snd.scale))), r, st, got)
  {
    WindowOfIsPromised(p, t.snd, r.rcv);
    var u := t.(snd := t.snd.(wnd := WindowOf(p, t.snd.scale)));
    assert Grows(t.snd, u.snd);
    GrownPackets(t.io.out, t.conv, t.snd, u.snd, st, st);
    GrownLink(t, u, r, st, st, got);
  }

  /** An acknowledgment up to a boundary removes whole segments. */
  lemma {:induction false} AckFreeIsSuffix(l: seq<SSegment>, pos: nat, nxt: nat, end: nat, n: nat, largest: nat)
    requires Segs(l, pos, nxt, end) && n <= nxt - pos && IsCut(l, pos, pos + n)
    ensures forall e :: e in AckFree(l, n, largest).0 ==> e in l
  {
    if n != 0 {
      CutsAreBehind(l[1..], pos + l[0].len, pos + n);
      AckFreeIsSuffix(l[1..], pos + l[0].len, nxt, end, n - l[0].len, Max(l[0].len, largest));
    }
  }

  lemma AckBytesKeepsLink(t: Tcb, r: Tcb, st: seq<byte>, got: seq<byte>, p: Packet, now: nat)
    requires Wf(t) && Link(t, r, st, got) && AckOk(p, t.snd, r.rcv) && t.snd.una < p.ack <= t.snd.nxt
    ensures Link(AckBytes(t, p, now), r, st, got)
  {
    var s := t.snd;
    var n := p.ack - s.una;
    var u := AckBytes(t, p, now);
    EndIsLast(s.slist, s.una, s.nxt, s.una + s.buf.len);
    AckFreeKeeps(s.slist, s.una, s.nxt, s.una + s.buf.len, n, t.cc.largest);
    AckFreeIsSuffix(s.slist, s.una, s.nxt, s.una + s.buf.len, n, t.cc.largest);
    ConsumeReadDropsFromTheFront(s.buf, n);
    forall k | 0 <= k < |u.snd.slist|
      ensures var e := u.snd.slist[k];
              (e.ctrl <==> e.seqno < CONNECT) && (e.ctrl ==> e.seqno == 0 && e.len == CONNECT)
    {
      assert u.snd.slist[k] in s.slist;
    }
    forall c: nat {:trigger Boundary(u.snd, c)} | c <= s.nxt && Boundary(s, c) ensures Boundary(u.snd, c) {
      if c > p.ack {
        AckFreeKeepsCut(s.slist, s.una, s.nxt, s.una + s.buf.len, n, t.cc.largest, c);
      }
    }
    WindowOfIsPromised(p, s, r.rcv);
    GrownPackets(t.io.out, t.conv, s, u.snd, st, st);
    GrownLink(t, u, r, st, st, got);
  }
}
