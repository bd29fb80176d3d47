/** Duplicate acknowledgments, each at its own time: the window they inflate, and which of them
    transmit the oldest segment again. */
module TcpDuplicates {
  import opened Numbers
  import opened FifoBuffers
  import opened TcpSegments
  import opened TcpTypes
  import opened TcpSender
  import opened TcpReceiver
  import opened TcpEndpoint
  import opened TcpDelivery
  import opened TcpSystem
  import opened TcpPolicies
  import opened TcpRuns

  // ---- A duplicate acknowledgment arrives ----

  /** A packet without payload that acknowledges what has been acknowledged before. */
  predicate Duplicate(t: Tcb, p: Packet) {
    p.conv == t.conv && !HasRst(p.flags) && !HasCtl(p.flags) && p.data == [] && p.ack == t.snd.una
  }

  predicate AllDuplicates(t: Tcb, ops: seq<Op>) {
    forall k :: 0 <= k < |ops| ==> ops[k].Arrives? && Duplicate(t, ops[k].p)
  }

  /** The duplicate is counted, which may transmit the oldest segment again. */
  function Counted(t: Tcb, p: Packet, now: nat, w: Writer): (r: Acked)
    requires Wf(t) && p.ack == t.snd.una
    ensures Wf(r.t)
  {
    var u := Stamp(Received(t, now), p);
    StampIsWf(Received(t, now), p);
    DuplicateAck(u, p, now, w)
  }

  lemma StampIsWf(t: Tcb, p: Packet)
    requires Wf(t)
    ensures Wf(Stamp(t, p))
  {
  }

  /** The endpoint before it tries to send what the window now allows. */
  function Ready(t: Tcb, p: Packet, now: nat, w: Writer): (r: Acked)
    requires Wf(t) && p.ack == t.snd.una
    ensures Wf(r.t)
  {
    match Counted(t, p, now, w)
    case Dropped(u) => Dropped(u)
    case Fine(u) => Fine(AfterAck(u, false))
  }

  lemma BareArrives(t: Tcb, p: Packet)
    requires Wf(t) && p.data == []
    ensures ArriveAt(t, p) == Arrival(t.rcv, true, false, false, false)
  {
  }

  lemma BarePayload(t: Tcb, p: Packet, now: nat, w: Writer)
    requires Wf(t) && !t.halted && p.data == []
    ensures Payload(t, p, now, w).1 == AttemptSend(t, ReplyFlags(t, p), now, w)
  {
    BareArrives(t, p);
    hide AttemptSend, ArriveAt, SndOk, CcOk, Quiet, ReplyFlags, Sends;
  }

  lemma DuplicateAnswered(t: Tcb, p: Packet, now: nat, w: Writer)
    requires Wf(t) && !t.halted && p.data == []
    ensures var r := Rest(t, p, false, now, w).1;
            var u := AfterAck(t, false);
            r == AttemptSend(u, ReplyFlags(u, p), now, w)
  {
    hide AttemptSend, Payload, SndOk, CcOk, ReplyFlags, AfterAck;
    BarePayload(AfterAck(t, false), p, now, w);
  }

  /** What processing a duplicate comes to: it is counted, and then the endpoint tries to send. */
  lemma DuplicateProcessed(t: Tcb, p: Packet, now: nat, w: Writer)
    requires Wf(t) && !t.halted && !t.state.Closed? && Duplicate(t, p)
    ensures var (x, u) := (Ready(t, p, now, w), Process(t, p, now, w).1);
            && (x.Dropped? ==> u == x.t)
            && (x.Fine? ==> u == AttemptSend(x.t, ReplyFlags(x.t, p), now, w))
  {
    ProcessHandles(t, p, now, w);
    var r := Counted(t, p, now, w);
    assert Duplicate(Stamp(Received(t, now), p), p);
    hide Process, DuplicateAck, Stamp, AttemptSend, AfterAck, Rest, SndOk, CcOk, Keeps, NewAck, Renegotiates;
    if r.Fine? {
      CountedSame(t, p, now, w);
      DuplicateAnswered(r.t, p, now, w);
    }
  }

  /** Counting concerns neither the conversation nor what is acknowledged. */
  lemma CountedSame(t: Tcb, p: Packet, now: nat, w: Writer)
    requires Wf(t) && Duplicate(t, p)
    ensures var r := Counted(t, p, now, w); r.Fine? ==> Duplicate(r.t, p) && r.t.halted == t.halted
  {
    hide Repeated, SndOk, CcOk, Armed;
  }

  lemma ThenSends(t: Tcb, op: Op)
    requires Wf(t) && !t.halted && !t.state.Closed? && op.Arrives? && Duplicate(t, op.p)
    ensures var x := Ready(t, op.p, op.now, op.w);
            && (x.Dropped? ==> Then(t, op) == x.t && x.t.state.Closed?)
            && (x.Fine? ==> Then(t, op) == AttemptSend(x.t, ReplyFlags(x.t, op.p), op.now, op.w))
  {
    hide Process, AttemptSend, Then, AfterAck, Stamp, Retransmit, SndOk, CcOk, Keeps, Sends, ReplyFlags;
    ThenProcesses(t, op);
    DuplicateProcessed(t, op.p, op.now, op.w);
    DroppedIsClosed(t, op.p, op.now, op.w);
  }

  lemma DroppedIsClosed(t: Tcb, p: Packet, now: nat, w: Writer)
    requires Wf(t) && p.ack == t.snd.una
    ensures var r := Counted(t, p, now, w); r.Dropped? ==> r.t.state.Closed?
  {
    hide Retransmit, EnterRecovery, SndOk, CcOk;
  }

  // ---- The window after duplicates ----

  /** By how many segments the window exceeds the threshold after `k` duplicates, which are counted
      in eight bits: one for each up to the 255th; the next three leave it as it is, and the last
      of them begins anew. */
  function Excess(k: nat): nat
    requires k >= 3
  {
    if k % 256 >= 3 then k % 256 else 255
  }

  /** The window after `k` duplicates; and at most what it can be when something has set it anew in
      between. */
  predicate Inflated(c: Cc, k: nat, calm: bool) {
    && c.dupAcks == k % 256
    && (k >= 3 ==>
          if calm then c.cwnd == c.ssthresh + Excess(k) * c.mss else c.cwnd <= (Excess(k) - 1) * c.mss)
  }

  /** The count has gone up to `k`, the window not yet. */
  predicate Inflating(c: Cc, k: nat, calm: bool) {
    && c.dupAcks == k % 256
    && (k >= 3 && k % 256 != 3 ==>
          var more := if k % 256 > 3 then c.mss else 0;
          if calm then c.cwnd + more == c.ssthresh + Excess(k) * c.mss
          else c.cwnd + more <= (Excess(k) - 1) * c.mss)
  }

  lemma OneMoreTimes(k: nat, m: nat)
    ensures (k + 1) * m == k * m + m
  {
  }

  lemma OneMoreTurn(k: nat)
    ensures (k + 1) % 256 == if k % 256 == 255 then 0 else k % 256 + 1
  {
  }

  lemma CountsUp(c: Cc, k: nat, calm: bool)
    requires Inflated(c, k, calm)
    ensures Inflating(c.(dupAcks := (c.dupAcks + 1) % 256), k + 1, calm)
  {
    OneMoreTurn(k);
    if k >= 3 {
      OneMoreTimes(Excess(k), c.mss);
      OneMoreTimes(Excess(k) - 1, c.mss);
    }
  }

  /** Half of what is in flight, but two segments at least. */
  function HalfInFlight(t: Tcb): nat {
    Max((t.snd.nxt - t.snd.una) / 2, 2 * t.cc.mss)
  }

  lemma EntersInflated(u: Tcb, k: nat, calm: bool)
    requires Wf(u) && u.cc.dupAcks == k % 256 == 3
    ensures var v := EnterRecovery(u);
            && Inflated(v.cc, k, true) && v.snd == u.snd && v.state == u.state
            && v.cc.recover == v.snd.nxt && v.cc.ssthresh == HalfInFlight(v)
  {
    hide SndOk, CcOk, Keeps, Quiet;
  }

  /** A `k`-th duplicate in a row has been counted. */
  ghost predicate CountedUp(t: Tcb, k: nat, calm: bool, r: Acked) {
    && (r.Dropped? ==> k % 256 == 3)
    && (r.Fine? ==>
          && Inflated(r.t.cc, k, calm || k % 256 == 3)
          && r.t.snd.una == t.snd.una < r.t.snd.nxt && r.t.state == t.state
          && r.t.conv == t.conv && r.t.halted == t.halted)
    && (r.Fine? && k % 256 == 3 ==> r.t.cc.recover == r.t.snd.nxt && r.t.cc.ssthresh == HalfInFlight(r.t))
    && (k < 3 ==> r.t.cc == t.cc.(dupAcks := k))
  }

  lemma CountInflates(t: Tcb, k: nat, calm: bool, now: nat, w: Writer)
    requires Wf(t) && t.snd.una < t.snd.nxt && Inflating(t.cc, k, calm)
    ensures CountedUp(t, k, calm, CountDuplicate(t, now, w))
  {
    hide Retransmit, SndOk, CcOk, HalfInFlight, EnterRecovery;
    if t.cc.dupAcks == 3 {
      var r := Retransmit(t, now, w);
      if r.Fine? {
        EntersInflated(r.t, k, calm);
      }
    }
  }

  lemma RepeatedInflates(t: Tcb, k: nat, calm: bool, now: nat, w: Writer)
    requires Wf(t) && t.snd.una < t.snd.nxt && Inflated(t.cc, k, calm)
    ensures CountedUp(t, k + 1, calm, Repeated(t, true, now, w))
  {
    hide CountDuplicate, Keeps, Quiet, SndOk, Inflated, Inflating;
    CountsUp(t.cc, k, calm);
    CountInflates(t.(cc := t.cc.(dupAcks := (t.cc.dupAcks + 1) % 256)), k + 1, calm, now, w);
  }

  /** Ready to send after the `k`-th duplicate. */
  ghost predicate ReadyAfter(t: Tcb, k: nat, calm: bool, r: Acked) {
    && (r.Dropped? ==> k % 256 == 3)
    && (r.Fine? ==>
          && Inflated(r.t.cc, k, calm) && r.t.snd.una == t.snd.una < r.t.snd.nxt && !r.t.state.ReceivedSyn?
          && r.t.conv == t.conv && r.t.halted == t.halted && (!t.state.Closed? ==> !r.t.state.Closed?))
    && (k < 3 && !t.state.ReceivedSyn? ==> r.t.cc == t.cc.(dupAcks := k))
  }

  lemma ReadyInflates(t: Tcb, k: nat, calm: bool, p: Packet, now: nat, w: Writer)
    requires Wf(t) && t.snd.una < t.snd.nxt && Duplicate(t, p)
    requires Inflated(t.cc, k, calm) && (k > 0 ==> !t.state.ReceivedSyn?)
    ensures ReadyAfter(t, k + 1, calm || (k + 1) % 256 == 3, Ready(t, p, now, w))
  {
    var u := Stamp(Received(t, now), p);
    StampIsWf(Received(t, now), p);
    var x := u.(snd := u.snd.(wnd := WindowOf(p, u.snd.scale)));
    hide Repeated, Inflated, Segs, CcOk, Quiet, Armed;
    RepeatedInflates(x, k, calm, now, w);
    var r := Repeated(x, true, now, w);
    if r.Fine? {
      hide SndOk;
      AfterAckInflates(r.t, k + 1, calm || (k + 1) % 256 == 3);
    }
  }

  lemma AfterAckInflates(t: Tcb, k: nat, calm: bool)
    requires Wf(t) && Inflated(t.cc, k, calm) && (k > 1 ==> !t.state.ReceivedSyn?) && k > 0
    ensures var u := AfterAck(t, false);
            && Inflated(u.cc, k, calm) && u.snd == t.snd && !u.state.ReceivedSyn?
            && u.conv == t.conv && u.halted == t.halted && (!t.state.Closed? ==> !u.state.Closed?)
            && (!t.state.ReceivedSyn? ==> u.cc == t.cc)
  {
    hide Establish, SndOk, CcOk, Armed;
    if t.state.ReceivedSyn? {
      EstablishCounts(t);
      RefillKeeps(Establish(t));
    } else {
      RefillKeeps(t);
    }
  }

  lemma EstablishCounts(t: Tcb)
    requires Wf(t)
    ensures var u := Establish(t); u.cc.dupAcks == t.cc.dupAcks
  {
    hide SndOk, CcOk;
  }

  lemma RefillKeeps(t: Tcb)
    requires Wf(t)
    ensures var u := Refill(t); u == t.(io := u.io, writeEnable := u.writeEnable)
  {
    hide SndOk, CcOk;
  }

  /** `u` has tried to send after the `k`-th duplicate. */
  ghost predicate SentAfter(t: Tcb, u: Tcb, k: nat, calm: bool, undisturbed: bool) {
    && Inflated(u.cc, k, calm && undisturbed) && (undisturbed ==> u.cc == t.cc)
    && u.snd.una == t.snd.una && t.snd.nxt <= u.snd.nxt && u.state == t.state
    && u.conv == t.conv && u.halted == t.halted
  }

  /** Sending keeps the window, unless it has been idle or the segment size falls. */
  lemma SendingInflates(t: Tcb, k: nat, calm: bool, flags: SendFlags, now: nat, w: Writer)
    requires Wf(t) && Inflated(t.cc, k, calm)
    ensures var u := AttemptSend(t, flags, now, w);
            SentAfter(t, u, k, calm, !Idle(t, now) && u.cc.level == t.cc.level)
  {
    AttemptSendsNew(t, flags, now, w);
    if k >= 3 {
      Timeses(AttemptSend(t, flags, now, w).cc.mss, 2, Excess(k) - 1);
    }
    hide Restarted, AttemptSend, Idle, SndOk, PutsOut, Reach;
  }

  // ---- Any duplicates, each at its own time ----

  /** When duplicate `op` is processed: no idle time has passed, and the segment size stays. */
  predicate Calm(t: Tcb, op: Op)
    requires Wf(t)
  {
    op.Arrives? && op.p.ack == t.snd.una ==>
      var x := Ready(t, op.p, op.now, op.w);
      x.Fine? ==> !Idle(x.t, op.now) && Then(t, op).cc.level == x.t.cc.level
  }

  /** So it is for every duplicate since the last that began recovery. */
  predicate Undisturbed(t: Tcb, ops: seq<Op>)
    requires Wf(t)
  {
    ops != [] ==>
      var before := ops[..|ops| - 1];
      && Calm(After(t, before), ops[|ops| - 1])
      && (|ops| % 256 != 3 ==> Undisturbed(t, before))
  }

  /** `u` has counted `k` duplicates since `t`. */
  ghost predicate HasCounted(t: Tcb, u: Tcb, k: nat, calm: bool) {
    && Inflated(u.cc, k, calm) && u.snd.una == t.snd.una < u.snd.nxt
    && u.conv == t.conv && !u.halted && (k > 0 ==> !u.state.ReceivedSyn?)
    && (k < 3 && calm && !t.state.ReceivedSyn? ==> u.cc == t.cc.(dupAcks := k) && !u.state.ReceivedSyn?)
  }

  lemma ReadyHasCounted(t: Tcb, u: Tcb, x: Tcb, v: Tcb, k: nat, calm: bool, undisturbed: bool)
    requires HasCounted(t, u, k, calm) && ReadyAfter(u, k + 1, calm || (k + 1) % 256 == 3, Fine(x))
    requires SentAfter(x, v, k + 1, calm || (k + 1) % 256 == 3, undisturbed)
    ensures HasCounted(t, v, k + 1, undisturbed && (calm || (k + 1) % 256 == 3))
  {
    hide Inflated;
  }

  lemma OneMoreDuplicate(t: Tcb, u: Tcb, k: nat, calm: bool, op: Op)
    requires Wf(u) && HasCounted(t, u, k, calm) && !u.state.Closed? && op.Arrives? && Duplicate(t, op.p)
    ensures var v := Then(u, op);
            && (v.state.Closed? ==> k + 1 >= 3)
            && (!v.state.Closed? ==> HasCounted(t, v, k + 1, Calm(u, op) && (calm || (k + 1) % 256 == 3)))
  {
    hide Ready, AttemptSend, Then, Idle, Inflated, Wf, ReplyFlags, SentAfter;
    var p, x := op.p, Ready(u, op.p, op.now, op.w);
    ThenSends(u, op);
    ReadyInflates(u, k, calm, p, op.now, op.w);
    if x.Fine? {
      SendingInflates(x.t, k + 1, calm || (k + 1) % 256 == 3, ReplyFlags(x.t, p), op.now, op.w);
      ReadyHasCounted(t, u, x.t, Then(u, op), k, calm, Calm(u, op));
    }
  }

  /** The count starts from 0. */
  lemma NothingCounted(t: Tcb)
    requires !t.halted && t.snd.una < t.snd.nxt && t.cc.dupAcks == 0
    ensures HasCounted(t, t, 0, true)
  {
  }

  lemma {:induction false} DuplicatesCount(t: Tcb, ops: seq<Op>)
    requires Wf(t) && !t.halted && !t.state.Closed? && t.snd.una < t.snd.nxt && t.cc.dupAcks == 0
    requires AllDuplicates(t, ops)
    ensures var u := After(t, ops);
            && (u.state.Closed? ==> |ops| >= 3)
            && (!u.state.Closed? ==> HasCounted(t, u, |ops|, Undisturbed(t, ops)))
  {
    hide Then, Calm, HasCounted, Wf;
    if ops == [] {
      NothingCounted(t);
    } else {
      var before := ops[..|ops| - 1];
      DuplicatesCount(t, before);
      var u := After(t, before);
      assert Duplicate(t, ops[|ops| - 1].p);
      if u.state.Closed? {
        ClosedStays(u, ops[|ops| - 1]);
      } else {
        NotTheBeginning(|before|);
        OneMoreDuplicate(t, u, |before|, Undisturbed(t, before), ops[|ops| - 1]);
      }
    }
  }

  lemma NotTheBeginning(k: nat)
    ensures (k + 1) % 256 == 3 ==> k + 1 >= 3
  {
  }

  lemma ClosedStays(t: Tcb, op: Op)
    requires Wf(t) && t.state.Closed? && op.Arrives?
    ensures Then(t, op).state.Closed?
  {
    ThenProcesses(t, op);
    hide Then, Handle, SndOk, CcOk;
  }

  /** The law of the window tells apart what was disturbed. */
  lemma LawIsExact(c: Cc, k: nat, calm: bool)
    requires k >= 3 && Inflated(c, k, calm) && CcOk(c)
    ensures c.cwnd == c.ssthresh + Excess(k) * c.mss <==> calm
  {
    OneMoreTimes(Excess(k) - 1, c.mss);
  }

  /** NewReno, section 3.2 of RFC 6582, as far as the eight-bit count carries it: after any
      duplicates, each at its own time, the window is the threshold and one segment for each since
      the last that began recovery, exactly unless an idle time or a fall of the segment size came
      between. Before the third nothing changes, and only a retransmission ends the connection. */
  lemma DuplicatesInflate(t: Tcb, ops: seq<Op>)
    requires Wf(t) && !t.halted && !t.state.Closed? && t.snd.una < t.snd.nxt && t.cc.dupAcks == 0
    requires AllDuplicates(t, ops)
    ensures var (k, u) := (|ops|, After(t, ops));
            && (u.state.Closed? ==> k >= 3)
            && (!u.state.Closed? ==>
                  && u.cc.dupAcks == k % 256 && u.snd.una == t.snd.una < u.snd.nxt
                  && (k >= 3 ==> (u.cc.cwnd == u.cc.ssthresh + Excess(k) * u.cc.mss <==> Undisturbed(t, ops)))
                  && (k < 3 && Undisturbed(t, ops) && !t.state.ReceivedSyn? ==> u.cc == t.cc.(dupAcks := k)))
  {
    hide After, Undisturbed, AllDuplicates;
    DuplicatesCount(t, ops);
    var u := After(t, ops);
    if !u.state.Closed? && |ops| >= 3 {
      LawIsExact(u.cc, |ops|, Undisturbed(t, ops));
    }
  }

  // ---- Which duplicates retransmit ----

  /** The oldest segment has not been transmitted too often, and lies within the send buffer (it
      always does between two endpoints: see `TcpTheorems.FlowControl`). */
  predicate FrontGoes(t: Tcb) {
    && t.snd.slist != [] && t.snd.una <= t.snd.slist[0].seqno
    && t.snd.slist[0].xmit < (if t.state.Established? then 15 else 30)
  }

  /** And the network takes it. */
  predicate FrontIsTaken(t: Tcb, w: Writer)
    requires CcOk(t.cc)
  {
    FrontGoes(t) && Takes(t.cc, Min(t.snd.slist[0].len, t.cc.mss), t.io.writes, w)
  }

  /** `p` repeats data that were in flight. */
  predicate Repeats(p: Packet, nxt: nat) { p.data != [] && p.seqno < nxt }

  /** One packet more, of the oldest segment. */
  predicate FrontSent(t: Tcb, out: seq<Packet>) {
    && |out| == |t.io.out| + 1 && t.io.out <= out
    && t.snd.slist != [] && Repeats(out[|t.io.out|], t.snd.nxt)
    && out[|t.io.out|].seqno == t.snd.slist[0].seqno
  }

  /** The next smaller packet size. */
  function Lowered(c: Cc): (d: Cc)
    requires c.level < LAST_LEVEL
    ensures CcOk(c) ==> CcOk(d)
  {
    var mss := PacketMaximum(c.level + 1) - PACKET_OVERHEAD;
    c.(level := c.level + 1, mss := mss, cwnd := 2 * mss)
  }

  lemma LowerOnce(c: Cc, n: nat)
    requires CcOk(c)
    ensures LowerMss(c, n) ==
            if c.level == LAST_LEVEL then (false, c)
            else if Lowered(c).mss < n then (true, Lowered(c)) else LowerMss(Lowered(c), n)
  {
    hide Steady, Roomy;
  }

  lemma {:induction false} LowerIgnoresCount(c: Cc, n: nat, k: nat)
    requires CcOk(c) && k < 256
    ensures LowerMss(c.(dupAcks := k), n) == (LowerMss(c, n).0, LowerMss(c, n).1.(dupAcks := k))
    decreases LAST_LEVEL - c.level
  {
    hide LowerMss, Steady, Roomy;
    LowerOnce(c, n);
    LowerOnce(c.(dupAcks := k), n);
    if c.level < LAST_LEVEL {
      assert Lowered(c.(dupAcks := k)) == Lowered(c).(dupAcks := k);
      if Lowered(c).mss >= n {
        LowerIgnoresCount(Lowered(c), n, k);
      }
    }
  }

  lemma {:induction false} TakesIgnoresCount(c: Cc, n: nat, at: nat, w: Writer, k: nat)
    requires CcOk(c) && k < 256
    ensures Takes(c.(dupAcks := k), n, at, w) == Takes(c, n, at, w)
    decreases LAST_LEVEL - c.level
  {
    LowerIgnoresCount(c, n, k);
    var (lower, d) := LowerMss(c, n);
    if w(at).TooLarge? && lower {
      TakesIgnoresCount(d, d.mss, at + 1, w, k);
    }
    hide LowerMss;
  }

  lemma FrontIsOld(t: Tcb)
    requires Wf(t) && t.snd.una < t.snd.nxt
    ensures t.snd.slist != [] && Transmittable(t.snd, 0)
    ensures FrontGoes(t) ==> t.snd.slist[0].seqno == t.snd.una
  {
    FrontInFlight(t.snd.slist, t.snd.una, t.snd.nxt, t.snd.una + t.snd.buf.len);
  }

  lemma TransmitFront(t: Tcb, now: nat, w: Writer)
    requires Wf(t) && t.snd.una < t.snd.nxt && Transmittable(t.snd, 0)
    ensures var (ok, u) := Transmit(t, 0, now, w);
            && (FrontGoes(t) ==> (ok <==> FrontIsTaken(t, w)))
            && (FrontIsTaken(t, w) ==> FrontSent(t, u.io.out))
            && (!FrontIsTaken(t, w) ==> u.io.out == t.io.out)
  {
    var s := t.snd.slist[0];
    FrontIsOld(t);
    SegmentFits(t.snd, 0);
    if FrontGoes(t) {
      SendLoopTakes(t, s, Min(s.len, t.cc.mss), now, w);
      SendLoopOut(t, s, Min(s.len, t.cc.mss), now, w);
      hide SendLoop, Takes;
    }
    hide Tries, Sends, Segs, CcOk, Steady;
  }

  /** What retransmitting the oldest segment puts on the network. */
  lemma RetransmitFront(t: Tcb, now: nat, w: Writer)
    requires Wf(t) && t.snd.una < t.snd.nxt
    ensures var r := Retransmit(t, now, w);
            && (FrontIsTaken(t, w) ==> r.Fine? && FrontSent(t, r.t.io.out))
            && (!FrontIsTaken(t, w) ==> r.t.io.out == t.io.out)
            && (FrontGoes(t) && !FrontIsTaken(t, w) ==> r.Dropped?)
            && t.snd.nxt <= r.t.snd.nxt
  {
    FrontIsOld(t);
    TransmitFront(t, now, w);
    hide Transmit, Segs, CcOk, FrontGoes, FrontIsTaken, FrontSent, Quiet, Steady;
  }

  /** What counting a duplicate puts on the network: a packet of the oldest segment if the count is
      then 3 modulo 256 and the network takes it, and otherwise nothing. */
  ghost predicate CountedOut(t: Tcb, third: bool, w: Writer, r: Acked)
    requires CcOk(t.cc)
  {
    && t.snd.nxt <= r.t.snd.nxt
    && (third && FrontIsTaken(t, w) ==> r.Fine? && FrontSent(t, r.t.io.out))
    && (!(third && FrontIsTaken(t, w)) ==> r.t.io.out == t.io.out)
    && (!third ==> r.Fine? && r.t.snd.slist == t.snd.slist)
    && (third && FrontGoes(t) && !FrontIsTaken(t, w) ==> r.Dropped?)
  }

  lemma CountDuplicateOut(t: Tcb, now: nat, w: Writer)
    requires Wf(t) && t.snd.una < t.snd.nxt
    ensures CountedOut(t, t.cc.dupAcks == 3, w, CountDuplicate(t, now, w))
  {
    hide Retransmit, FrontIsTaken, FrontGoes, FrontSent, SndOk, CcOk, InFlight, Steady;
    if t.cc.dupAcks == 3 {
      RetransmitFront(t, now, w);
    }
  }

  /** The count and the window of the peer do not matter for what is retransmitted. */
  lemma SameFront(t: Tcb, u: Tcb, third: bool, w: Writer, r: Acked)
    requires CcOk(t.cc) && CcOk(u.cc) && CountedOut(u, third, w, r)
    requires u.snd == t.snd.(wnd := u.snd.wnd) && u.cc == t.cc.(dupAcks := u.cc.dupAcks)
    requires u.io == t.io && u.state == t.state
    ensures CountedOut(t, third, w, r)
  {
    if FrontGoes(t) {
      TakesIgnoresCount(t.cc, Min(t.snd.slist[0].len, t.cc.mss), t.io.writes, w, u.cc.dupAcks);
    }
    hide Takes;
  }

  lemma CountingOut(t: Tcb, p: Packet, now: nat, w: Writer)
    requires Wf(t) && t.snd.una < t.snd.nxt && Duplicate(t, p)
    ensures CountedOut(t, (t.cc.dupAcks + 1) % 256 == 3, w, Counted(t, p, now, w))
  {
    CountedIs(t, p, now, w);
    var x := WithCount(t, p, now);
    hide Counted, CountDuplicate, CountedOut, SndOk, CcOk;
    CountDuplicateOut(x, now, w);
    SameFront(t, x, (t.cc.dupAcks + 1) % 256 == 3, w, CountDuplicate(x, now, w));
  }

  /** The count has gone up, and nothing else been done. */
  function WithCount(t: Tcb, p: Packet, now: nat): Tcb
    requires Wf(t)
  {
    var u := Stamp(Received(t, now), p);
    u.(snd := u.snd.(wnd := WindowOf(p, u.snd.scale)), cc := u.cc.(dupAcks := (u.cc.dupAcks + 1) % 256))
  }

  lemma CountedIs(t: Tcb, p: Packet, now: nat, w: Writer)
    requires Wf(t) && t.snd.una < t.snd.nxt && Duplicate(t, p)
    ensures var x := WithCount(t, p, now);
            && Wf(x) && x.snd == t.snd.(wnd := x.snd.wnd) && x.cc == t.cc.(dupAcks := (t.cc.dupAcks + 1) % 256)
            && x.io == t.io && x.state == t.state
            && Counted(t, p, now, w) == CountDuplicate(x, now, w)
  {
    StampIsWf(Received(t, now), p);
    hide CountDuplicate, WindowOf, Segs, Steady;
  }

  lemma AfterAckOut(t: Tcb)
    requires Wf(t)
    ensures var u := AfterAck(t, false); u.io.out == t.io.out && u.snd == t.snd
  {
    hide Establish, SndOk, CcOk, Armed;
    RefillOut(t);
    if t.state.ReceivedSyn? {
      EstablishOut(t);
      RefillOut(Establish(t));
    }
  }

  lemma RefillOut(t: Tcb)
    requires Wf(t)
    ensures Refill(t).io.out == t.io.out
  {
    hide SndOk, CcOk;
  }

  lemma EstablishOut(t: Tcb)
    requires Wf(t)
    ensures Establish(t).io.out == t.io.out
  {
    hide SndOk, CcOk;
  }

  lemma ReadyOut(t: Tcb, p: Packet, now: nat, w: Writer)
    requires Wf(t) && t.snd.una < t.snd.nxt && Duplicate(t, p)
    ensures CountedOut(t, (t.cc.dupAcks + 1) % 256 == 3, w, Ready(t, p, now, w))
  {
    CountingOut(t, p, now, w);
    hide Counted, AfterAck, FrontSent, FrontIsTaken, FrontGoes, SndOk, CcOk;
    var r := Counted(t, p, now, w);
    if r.Fine? {
      AfterAckOut(r.t);
    }
  }

  /** Data that were in flight before have been put on the network once more. */
  ghost predicate Resent(t: Tcb, u: Tcb) {
    exists i :: |t.io.out| <= i < |u.io.out| && Repeats(u.io.out[i], t.snd.nxt)
  }

  /** One packet of the oldest segment if `third`, and besides nothing but new data up to `hi` and
      bare acknowledgments. */
  ghost predicate PutOutAfter(t: Tcb, u: Tcb, third: bool, hi: nat) {
    var k := |t.io.out| + if third then 1 else 0;
    && k <= |u.io.out|
    && (third ==> FrontSent(t, u.io.out[..k]))
    && PutsOut(if third then u.io.out[..k] else t.io.out, u.io.out, t.snd.nxt, hi)
  }

  lemma ResentIfThird(t: Tcb, u: Tcb, third: bool, hi: nat)
    requires PutOutAfter(t, u, third, hi)
    ensures Resent(t, u) <==> third
  {
    if third {
      assert Repeats(u.io.out[|t.io.out|], t.snd.nxt);
    }
  }

  lemma SendingOut(t: Tcb, x: Tcb, flags: SendFlags, now: nat, w: Writer, third: bool)
    requires Wf(x) && t.snd.nxt <= x.snd.nxt
    requires if third then FrontSent(t, x.io.out) else x.io.out == t.io.out
    ensures PutOutAfter(t, AttemptSend(x, flags, now, w), third, Reach(x))
  {
    AttemptSendsNew(x, flags, now, w);
    var u := AttemptSend(x, flags, now, w);
    hide AttemptSend, Restarted, Idle, FrontSent, SndOk, CcOk, Resizes, Sends, Keeps;
    IdleReach(x, now);
    hide Reach;
    assert u.io.out[..|x.io.out|] == x.io.out;
  }

  lemma IdleReach(t: Tcb, now: nat)
    ensures Reach(if Idle(t, now) then t.(cc := t.cc.(cwnd := t.cc.mss)) else t) <= Reach(t)
  {
  }

  lemma ThenPutsOut(t: Tcb, op: Op)
    requires Wf(t) && !t.halted && !t.state.Closed? && t.snd.una < t.snd.nxt && op.Arrives? && Duplicate(t, op.p)
    ensures PutOutAfter(t, Then(t, op), (t.cc.dupAcks + 1) % 256 == 3 && FrontIsTaken(t, op.w),
                        Reach(Ready(t, op.p, op.now, op.w).t))
  {
    var third := (t.cc.dupAcks + 1) % 256 == 3 && FrontIsTaken(t, op.w);
    var x := Ready(t, op.p, op.now, op.w);
    ThenSends(t, op);
    ReadyOut(t, op.p, op.now, op.w);
    hide Then, Ready, AttemptSend, Reach, FrontIsTaken, FrontGoes, FrontSent, ReplyFlags, SndOk, CcOk, PutsOut;
    if x.Fine? {
      hide PutOutAfter;
      SendingOut(t, x.t, ReplyFlags(x.t, op.p), op.now, op.w, third);
    } else {
      NothingPutOut(t, x.t, Reach(x.t));
    }
  }

  lemma NothingPutOut(t: Tcb, u: Tcb, hi: nat)
    requires u.io.out == t.io.out
    ensures PutOutAfter(t, u, false, hi)
  {
  }

  lemma ThirdResends(t: Tcb, op: Op)
    requires Wf(t) && !t.halted && !t.state.Closed? && t.snd.una < t.snd.nxt && op.Arrives? && Duplicate(t, op.p)
    requires (t.cc.dupAcks + 1) % 256 == 3 && FrontIsTaken(t, op.w)
    ensures Resent(t, Then(t, op))
  {
    hide Then, Ready, Reach, FrontIsTaken, PutOutAfter, Resent, Wf;
    ThenPutsOut(t, op);
    ResentIfThird(t, Then(t, op), true, Reach(Ready(t, op.p, op.now, op.w).t));
  }

  /** Of any duplicates, each at its own time, the `k`-th retransmits exactly when `k` is the third
      of its 256 and the network takes the oldest segment: then one packet of it comes first.
      Whatever else goes out is bare, or new data within the windows of the peer and of the
      congestion control. */
  lemma DuplicateRetransmitsExactly(t: Tcb, ops: seq<Op>)
    requires Wf(t) && !t.halted && !t.state.Closed? && t.snd.una < t.snd.nxt && t.cc.dupAcks == 0
    requires ops != [] && AllDuplicates(t, ops)
    ensures var (k, last) := (|ops|, ops[|ops| - 1]);
            var b := After(t, ops[..|ops| - 1]);
            !b.state.Closed? ==> last.p.ack == b.snd.una && RetransmitsExactly(b, After(t, ops), k, last)
  {
    hide After, Then, Undisturbed, RetransmitsExactly, HasCounted, Wf;
    var before, last := ops[..|ops| - 1], ops[|ops| - 1];
    AfterLast(t, ops);
    DuplicatesCount(t, before);
    assert Duplicate(t, last.p);
    var b := After(t, before);
    if !b.state.Closed? {
      NextRetransmitsExactly(t, b, |ops|, Undisturbed(t, before), last);
    }
  }

  lemma AfterLast(t: Tcb, ops: seq<Op>)
    requires Wf(t) && ops != []
    ensures After(t, ops) == Then(After(t, ops[..|ops| - 1]), ops[|ops| - 1])
  {
    hide Then;
  }

  /** Duplicate `op`, the `k`-th, has put out what it should. */
  ghost predicate RetransmitsExactly(b: Tcb, u: Tcb, k: nat, op: Op)
    requires Wf(b) && op.Arrives? && op.p.ack == b.snd.una
  {
    var third := k % 256 == 3 && FrontIsTaken(b, op.w);
    && (Resent(b, u) <==> third)
    && PutOutAfter(b, u, third, Reach(Ready(b, op.p, op.now, op.w).t))
  }

  lemma NextRetransmitsExactly(t: Tcb, b: Tcb, k: nat, calm: bool, op: Op)
    requires Wf(b) && k > 0 && HasCounted(t, b, k - 1, calm) && !b.state.Closed?
    requires op.Arrives? && Duplicate(t, op.p)
    ensures op.p.ack == b.snd.una && RetransmitsExactly(b, Then(b, op), k, op)
  {
    CountOfNext(b.cc.dupAcks, k);
    hide Then, FrontIsTaken, PutOutAfter, Resent, Ready, Reach, Wf;
    ThenPutsOut(b, op);
    var hi := Reach(Ready(b, op.p, op.now, op.w).t);
    ResentIfThird(b, Then(b, op), k % 256 == 3 && FrontIsTaken(b, op.w), hi);
  }

  lemma CountOfNext(d: nat, k: nat)
    requires k > 0 && d == (k - 1) % 256
    ensures (d + 1) % 256 == k % 256
  {
  }
}
