/** The sending half of a PseudoTcp endpoint: `queue`, `buildPacket`, `transmit` and
    `attemptSend` of extra/pseudo_tcp/pseudo_tcp.cpp as functions on the endpoint's state. */
module TcpSender {
  import opened Numbers
  import opened FifoBuffers
  import opened TcpSegments
  import opened TcpTypes

  // ---- Packets ----

  function NewPacket(t: Tcb, seqno: nat, flags: nat, data: seq<byte>, now: nat): (p: Packet)
    ensures AckHeader(p, t.rcv)
  {
    Packet(t.conv, seqno, t.rcv.nxt, flags, WindowField(t.rcv), now, t.tm.tsRecent, data)
  }

  /** The network takes packet `p` or refuses it. */
  function Wire(t: Tcb, p: Packet, res: WriteResult): (io: Io)
    requires AckHeader(p, t.rcv)
    ensures Acknowledging(t.io.out, io.out, t.rcv)
  {
    OnePacketMore(t.io.out, p, t.rcv);
    t.io.(writes := t.io.writes + 1, out := if res.Success? then t.io.out + [p] else t.io.out)
  }

  /** Hand a packet to the network. */
  function Emit(t: Tcb, p: Packet, w: Writer): (r: (WriteResult, Tcb))
    requires AckHeader(p, t.rcv)
    ensures Quiet(t, r.1) && r.1.state == t.state && r.1.snd == t.snd && r.1.cc == t.cc
    ensures SameClock(t.tm, r.1.tm)
  {
    var res := w(t.io.writes);
    var io := Wire(t, p, res);
    hide Acknowledging, Wire;
    (res, t.(io := io, tm := t.tm.(tsLastack := t.rcv.nxt)))
  }

  /** A packet with `len` bytes of payload counts as sent. */
  function Noted(t: Tcb, len: nat, now: nat): (u: Tcb)
    ensures Quiet(t, u) && u.state == t.state && u.snd == t.snd && u.cc == t.cc && u.io == t.io
    ensures SameClock(t.tm, u.tm)
  {
    t.(outgoing := true,
       tm := t.tm.(tAck := 0, lasttraffic := now, lastsend := if len > 0 then now else t.tm.lastsend))
  }

  function BuildPacket(t: Tcb, seqno: nat, flags: nat, offset: nat, len: nat, now: nat,
                       w: Writer): (r: (WriteResult, Tcb))
    requires t.snd.buf.Valid() && offset + len <= t.snd.buf.len
    ensures Quiet(t, r.1) && r.1.state == t.state && r.1.snd == t.snd && r.1.cc == t.cc
    ensures SameClock(t.tm, r.1.tm)
  {
    var (res, t1) := Emit(t, NewPacket(t, seqno, flags, t.snd.buf.Peek(len, offset), now), w);
    if !res.Success? && len != 0 then (res, t1)
    else
      QuietInTurn(t, t1, Noted(t1, len, now));
      (Success, Noted(t1, len, now))
  }

  lemma OnePacketMore(out: seq<Packet>, p: Packet, r: Rcv)
    ensures Acknowledging(out, out, r)
    ensures AckHeader(p, r) ==> Acknowledging(out, out + [p], r)
  {
  }

  predicate SameClock(a: Tm, b: Tm) {
    b.rtoBase == a.rtoBase && b.rto == a.rto && b.srtt == a.srtt && b.rttvar == a.rttvar
  }

  /** A packet without payload. */
  function SendAck(t: Tcb, seqno: nat, now: nat, w: Writer): Tcb
    requires t.snd.buf.Valid()
  {
    BuildPacket(t, seqno, 0, 0, 0, now, w).1
  }

  predicate SameRecovery(c: Cc, d: Cc) {
    d.dupAcks == c.dupAcks && d.recover == c.recover && d.ssthresh == c.ssthresh && d.mtuAdvise == c.mtuAdvise
  }

  /** Fall back through the packet sizes until a segment of `n` bytes gets smaller. */
  function LowerMss(c: Cc, n: nat): (r: (bool, Cc))
    requires CcOk(c)
    ensures CcOk(r.1) && c.level <= r.1.level && (Roomy(c) ==> Roomy(r.1))
    ensures r.0 ==> r.1.mss < n && c.level < r.1.level && r.1.mss + PACKET_OVERHEAD == PacketMaximum(r.1.level)
    ensures forall k :: c.level < k <= LAST_LEVEL && (r.0 ==> k < r.1.level) ==> n + PACKET_OVERHEAD <= PacketMaximum(k)
    ensures SameRecovery(c, r.1)
    ensures Steady(Established, c) ==> Steady(Established, r.1)
    decreases LAST_LEVEL - c.level
  {
    if PacketMaximum(c.level + 1) == 0 then (false, c)
    else
      var mss := PacketMaximum(c.level + 1) - PACKET_OVERHEAD;
      var d := c.(level := c.level + 1, mss := mss, cwnd := 2 * mss);
      if mss < n then (true, d) else LowerMss(d, n)
  }

  datatype Sending = Sent(n: nat, t: Tcb) | Refused(t: Tcb)

  /** What trying to send changes: packets went out, perhaps the segment size fell. */
  ghost predicate Tries(t: Tcb, u: Tcb) {
    && Quiet(t, u) && u.state == t.state && u.snd == t.snd && SameClock(t.tm, u.tm)
    && CcOk(t.cc) && CcOk(u.cc) && SameRecovery(t.cc, u.cc) && (Roomy(t.cc) ==> Roomy(u.cc))
    && (Steady(t.state, t.cc) ==> Steady(t.state, u.cc))
  }

  lemma TriesInTurn(t: Tcb, u: Tcb, v: Tcb)
    requires Tries(t, u) && Tries(u, v)
    ensures Tries(t, v)
  {
  }

  /** The answer TooLarge: fall back to a smaller segment. */
  function Fallback(t: Tcb, n: nat): (r: (bool, Tcb))
    requires CcOk(t.cc)
    ensures Tries(t, r.1) && r.1.cc == LowerMss(t.cc, n).1 && r.1.io == t.io
    ensures r.0 ==> MIN_PACKET - PACKET_OVERHEAD <= r.1.cc.mss < n && t.cc.level < r.1.cc.level
  {
    var (lower, c) := LowerMss(t.cc, n);
    (lower, t.(cc := c))
  }

  /** Hand `n` bytes of segment `s` to the network once. */
  function SendOnce(t: Tcb, s: SSegment, n: nat, now: nat, w: Writer): (r: (WriteResult, Tcb))
    requires t.snd.buf.Valid() && CcOk(t.cc)
    requires t.snd.una <= s.seqno && s.seqno - t.snd.una + n <= t.snd.buf.len
    ensures Tries(t, r.1) && r.1.cc == t.cc
  {
    BuildPacket(t, s.seqno, if s.ctrl then FLAG_CTL else 0, s.seqno - t.snd.una, n, now, w)
  }

  /** Hand `n` bytes of a segment to the network, fewer when it calls the packet too large. */
  function SendLoop(t: Tcb, s: SSegment, n: nat, now: nat, w: Writer): (r: Sending)
    requires t.snd.buf.Valid() && CcOk(t.cc)
    requires 0 < n <= s.len
    requires t.snd.una <= s.seqno ==> s.seqno - t.snd.una + n <= t.snd.buf.len
    ensures r.Sent? ==> 0 < r.n <= n
    ensures Tries(t, r.t)
    decreases LAST_LEVEL - t.cc.level
  {
    if s.seqno < t.snd.una then Sent(n, t)
    else
      var (res, t1) := SendOnce(t, s, n, now, w);
      match res
      case Success => Sent(n, t1)
      case Fail => Refused(t1)
      case TooLarge =>
        var (lower, t2) := Fallback(t1, n);
        TriesInTurn(t, t1, t2);
        if lower then
          var r := SendLoop(t2, s, t2.cc.mss, now, w);
          TriesInTurn(t, t2, r.t);
          r
        else Refused(t2)
  }

  /** The send buffer and what is known of the peer stay; more may be in flight. */
  predicate SameBuffer(a: Snd, b: Snd) {
    b.buf == a.buf && b.una == a.una && b.wnd == a.wnd && b.scale == a.scale && a.nxt <= b.nxt
  }

  /** What sending changes: packets went out, perhaps in smaller segments than before. */
  ghost predicate Sends(t: Tcb, u: Tcb) {
    && t.cc.level <= LAST_LEVEL && u.cc.level <= LAST_LEVEL
    && Quiet(t, u) && SameBuffer(t.snd, u.snd) && SameRecovery(t.cc, u.cc)
    && u.tm.rto == t.tm.rto && u.state == t.state && (Roomy(t.cc) ==> Roomy(u.cc))
    && (Steady(t.state, t.cc) ==> Steady(t.state, u.cc))
  }

  lemma SendsInTurn(t: Tcb, u: Tcb, v: Tcb)
    requires Sends(t, u) && Sends(u, v)
    ensures Sends(t, v)
  {
  }

  function Mark(s: Snd, i: nat, n: nat): (r: Snd)
    requires i < |s.slist| && n <= s.slist[i].len
  {
    s.(slist := MarkSent(s.slist, i, n),
       nxt := if s.slist[i].xmit == 0 then s.nxt + n else s.nxt)
  }

  /** Segment `i` may be transmitted: it is the oldest one in flight or the first not yet sent. */
  ghost predicate Transmittable(s: Snd, i: nat) {
    && i < |s.slist|
    && s.slist[i].len > 0
    && (i == FirstUnsent(s.slist) || (i == 0 && s.nxt > s.una))
  }

  lemma TriedIsWf(t: Tcb, u: Tcb)
    requires Wf(t) && Tries(t, u)
    ensures Wf(u) && Sends(t, u) && (Armed(t) ==> Armed(u))
  {
  }

  /** `n` bytes of segment `i` are under way; the retransmit timer starts unless it runs. */
  function Marked(t: Tcb, i: nat, n: nat, now: nat): (u: Tcb)
    requires Wf(t) && Transmittable(t.snd, i) && 0 < n <= t.snd.slist[i].len
    ensures Wf(u) && Sends(t, u) && u.snd == Mark(t.snd, i, n) && u.io == t.io
    ensures now > 0 ==> Armed(u)
    ensures i == FirstUnsent(t.snd.slist) ==> t.snd.nxt < u.snd.nxt
  {
    MarkOk(t.snd, i, n);
    t.(snd := Mark(t.snd, i, n),
       tm := t.tm.(rtoBase := if t.tm.rtoBase == 0 then now else t.tm.rtoBase))
  }

  function Transmit(t: Tcb, i: nat, now: nat, w: Writer): (r: (bool, Tcb))
    requires Wf(t) && Transmittable(t.snd, i)
    ensures Wf(r.1) && Sends(t, r.1)
    ensures now > 0 && Armed(t) ==> Armed(r.1)
    ensures r.0 && i == FirstUnsent(t.snd.slist) ==> t.snd.nxt < r.1.snd.nxt
  {
    var s := t.snd.slist[i];
    if s.xmit >= (if t.state.Established? then 15 else 30) then (false, t)
    else
      SegmentFits(t.snd, i);
      var r := SendLoop(t, s, Min(s.len, t.cc.mss), now, w);
      TriedIsWf(t, r.t);
      match r
      case Refused(t1) => (false, t1)
      case Sent(n, t1) =>
        SendsInTurn(t, t1, Marked(t1, i, n, now));
        (true, Marked(t1, i, n, now))
  }

  // ---- attemptSend ----

  function Window(t: Tcb): nat {
    var limited := if t.cc.dupAcks == 1 || t.cc.dupAcks == 2 then t.cc.dupAcks * t.cc.mss else 0;
    Min(t.snd.wnd, t.cc.cwnd + limited)
  }

  function InFlight(t: Tcb): nat
    requires SndOk(t.snd)
  {
    EndIsLast(t.snd.slist, t.snd.una, t.snd.nxt, t.snd.una + t.snd.buf.len);
    t.snd.nxt - t.snd.una
  }

  function Useable(t: Tcb): nat
    requires SndOk(t.snd)
  {
    if InFlight(t) < Window(t) then Window(t) - InFlight(t) else 0
  }

  /** How much to send next; nothing rather than a small part of the window. */
  function Available(t: Tcb): (n: nat)
    requires SndOk(t.snd)
    ensures n > 0 ==> t.snd.nxt + n <= t.snd.una + t.snd.wnd
    ensures t.snd.nxt + n <= t.snd.una + t.snd.buf.len && n <= t.cc.mss
    ensures n == 0 || n == Min(t.snd.buf.len - InFlight(t), t.cc.mss) || 4 * n >= Window(t)
  {
    EndIsLast(t.snd.slist, t.snd.una, t.snd.nxt, t.snd.una + t.snd.buf.len);
    var n := Min(t.snd.buf.len - InFlight(t), t.cc.mss);
    if n > Useable(t) then
      if Useable(t) * 4 < Window(t) then 0 else Useable(t)
    else n
  }

  /** Nothing more to send: acknowledge now, later or not at all. */
  function FinishSend(t: Tcb, flags: SendFlags, now: nat, w: Writer): (u: Tcb)
    requires t.snd.buf.Valid()
    ensures Quiet(t, u) && u.state == t.state && u.snd == t.snd && u.cc == t.cc && SameClock(t.tm, u.tm)
  {
    if flags.None? then t
    else if flags.ImmediateAck? || t.tm.tAck != 0 then SendAck(t, t.snd.nxt, now, w)
    else t.(tm := t.tm.(tAck := now))
  }

  predicate NagleHolds(t: Tcb, n: nat) {
    t.nagling && t.snd.nxt > t.snd.una && n < t.cc.mss
  }

  /** The next segment to transmit, cut to `n` bytes. */
  function CutNext(t: Tcb, n: nat): (u: Tcb)
    requires Wf(t) && 0 < n <= t.snd.una + t.snd.buf.len - t.snd.nxt
    ensures Wf(u) && Sends(t, u) && u.cc == t.cc && u.tm == t.tm && u.io == t.io
    ensures u.snd.nxt == t.snd.nxt
    ensures Transmittable(u.snd, FirstUnsent(u.snd.slist))
  {
    CutNextOk(t.snd, n);
    t.(snd := t.snd.(slist := CutTo(t.snd.slist, FirstUnsent(t.snd.slist), n)))
  }

  /** One round of `attemptSend`: cut and transmit up to `n` bytes. */
  function SendNext(t: Tcb, n: nat, now: nat, w: Writer): (r: (bool, Tcb))
    requires Wf(t) && 0 < n <= t.snd.una + t.snd.buf.len - t.snd.nxt
    ensures Wf(r.1) && Sends(t, r.1)
    ensures now > 0 && Armed(t) ==> Armed(r.1)
    ensures r.0 ==> t.snd.nxt < r.1.snd.nxt
  {
    var t1 := CutNext(t, n);
    var r := Transmit(t1, FirstUnsent(t1.snd.slist), now, w);
    SendsInTurn(t, t1, r.1);
    r
  }

  /** One turn of the loop of `attemptSend`; `done` when it is left. */
  function Turn(t: Tcb, flags: SendFlags, now: nat, w: Writer): (r: (bool, Tcb))
    requires Wf(t)
    ensures Sound(t, r.1, now) && Sends(t, r.1)
    ensures !r.0 ==> Unsent(r.1.snd) < Unsent(t.snd)
  {
    var n := Available(t);
    if n == 0 then (true, FinishSend(t, flags, now, w))
    else if NagleHolds(t, n) then (true, t)
    else
      var (ok, u) := SendNext(t, n, now, w);
      (!ok, u)
  }

  function Unsent(s: Snd): nat
    requires SndOk(s)
  {
    EndIsLast(s.slist, s.una, s.nxt, s.una + s.buf.len);
    s.una + s.buf.len - s.nxt
  }

  function AttemptLoop(t: Tcb, flags: SendFlags, now: nat, w: Writer): (u: Tcb)
    requires Wf(t)
    ensures Sound(t, u, now) && Sends(t, u)
    decreases Unsent(t.snd)
  {
    var (done, t1) := Turn(t, flags, now, w);
    hide Sends, Turn, CcOk;
    if done then t1
    else
      var u := AttemptLoop(t1, None, now, w);
      SendsInTurn(t, t1, u);
      SoundInTurn(t, t1, u, now);
      u
  }

  function AttemptSend(t: Tcb, flags: SendFlags, now: nat, w: Writer): (u: Tcb)
    requires Wf(t)
    ensures Keeps(t, u, now) && Sends(t, u)
  {
    var t1 := Restarted(t, now);
    var u := AttemptLoop(t1, flags, now, w);
    SendsInTurn(t, t1, u);
    SendsKeeps(t, u, now);
    u
  }

  lemma SendsKeeps(t: Tcb, u: Tcb, now: nat)
    requires Sound(t, u, now) && Sends(t, u)
    ensures Keeps(t, u, now)
  {
  }

  /** After an idle time the congestion window starts again from one segment. */
  function Restarted(t: Tcb, now: nat): (u: Tcb)
    requires Wf(t)
    ensures Wf(u) && Sends(t, u) && (Armed(t) ==> Armed(u))
  {
    if TimeDiff32(now, t.tm.lastsend) > t.tm.rto then t.(cc := t.cc.(cwnd := t.cc.mss)) else t
  }

  // ---- queue ----

  function Queue(s: Snd, data: seq<byte>, ctrl: bool): Snd
    requires s.buf.Valid()
  {
    var n := Min(|data|, s.buf.Free());
    s.(slist := Enlist(s.slist, s.una + s.buf.len, n, ctrl), buf := s.buf.Append(data[..n]))
  }

  // ---- The send list stays in order ----

  lemma SegmentFits(s: Snd, i: nat)
    requires SndOk(s) && Transmittable(s, i)
    ensures s.una <= s.slist[i].seqno ==> s.slist[i].seqno - s.una + s.slist[i].len <= s.buf.len
  {
    if i == FirstUnsent(s.slist) {
      UnsentFits(s.slist, s.una, s.nxt, s.una + s.buf.len, i);
    }
  }

  lemma MarkOk(s: Snd, i: nat, n: nat)
    requires SndOk(s) && Transmittable(s, i) && 0 < n <= s.slist[i].len
    ensures SndOk(Mark(s, i, n)) && Mark(s, i, n).nxt > s.una
  {
    EndIsLast(s.slist, s.una, s.nxt, s.una + s.buf.len);
    MarkKeeps(s.slist, s.una, s.nxt, s.una + s.buf.len, i, n);
    FrontInFlight(s.slist, s.una, s.nxt, s.una + s.buf.len);
  }

  lemma CutNextOk(s: Snd, n: nat)
    requires SndOk(s) && 0 < n <= s.una + s.buf.len - s.nxt
    ensures var k := FirstUnsent(s.slist);
            && k < |s.slist|
            && var u := s.(slist := CutTo(s.slist, k, n));
            && SndOk(u) && Transmittable(u, FirstUnsent(u.slist)) && FirstUnsent(u.slist) == k
            && u.slist[k].len <= n
  {
    var k := FirstUnsent(s.slist);
    UnsentExists(s.slist, s.una, s.nxt, s.una + s.buf.len);
    if n < s.slist[k].len {
      SplitKeeps(s.slist, s.una, s.nxt, s.una + s.buf.len, k, n);
      SplitKeepsFirstUnsent(s.slist, k, n);
    }
  }

  lemma QueueOk(s: Snd, data: seq<byte>, ctrl: bool)
    requires SndOk(s)
    requires ctrl ==> s.slist == [] && data != []
    ensures SndOk(Queue(s, data, ctrl))
  {
    EnlistKeeps(s.slist, s.una, s.nxt, s.una + s.buf.len, Min(|data|, s.buf.Free()), ctrl);
  }
}
