/** The recovery that duplicate acknowledgments begin, its end in any run of an endpoint, and the
    wait that doubles. */
module TcpRecovery {
  import opened Numbers
  import opened FifoBuffers
  import opened TcpSegments
  import opened TcpTypes
  import opened TcpSender
  import opened TcpReceiver
  import opened TcpEndpoint
  import opened TcpDelivery
  import opened TcpSystem
  import opened TcpPolicies
  import opened TcpRuns
  import opened TcpDuplicates

  // ---- Recovery, over any calls and packets ----

  /** What an observer of the acknowledgments keeps: the duplicates in a row, and the mark that ends
      recovery. */
  datatype Episode = Episode(count: nat, mark: nat)

  /** A new acknowledgment ends the count when no recovery is under way, as far as eight bits tell,
      or when it covers the mark. */
  predicate Finishes(e: Episode, ack: nat) { e.count % 256 < 3 || ack >= e.mark }

  function Observed(t: Tcb, e: Episode, p: Packet): Episode {
    if t.snd.una < p.ack <= t.snd.nxt then if Finishes(e, p.ack) then e.(count := 0) else e
    else if p.ack != t.snd.una || p.data != [] then e
    else if t.snd.una == t.snd.nxt then e.(count := 0)
    else Episode(e.count + 1, if (e.count + 1) % 256 == 3 then t.snd.nxt else e.mark)
  }

  predicate IsHeard(t: Tcb, op: Op)
    requires Wf(t)
  {
    op.Arrives? && Hears(t, op.p, op.now)
  }

  /** The episode after calls of `t`: only packets that are looked at count. */
  function Watched(t: Tcb, ops: seq<Op>): Episode
    requires Wf(t)
  {
    if ops == [] then Episode(t.cc.dupAcks, t.cc.recover)
    else
      var before := ops[..|ops| - 1];
      var (u, e) := (After(t, before), Watched(t, before));
      if IsHeard(u, ops[|ops| - 1]) then Observed(u, e, ops[|ops| - 1].p) else e
  }

  /** The endpoint is where the observer thinks, unless its connection has ended. */
  predicate Follows(t: Tcb, e: Episode) {
    t.state.Closed? || (t.cc.dupAcks == e.count % 256 && t.cc.recover == e.mark)
  }

  lemma ThenSameAcks(t: Tcb, op: Op)
    requires Wf(t) && !IsHeard(t, op)
    ensures SameAcks(t, Then(t, op))
  {
    hide Connect, Send, Receive, NotifyClock, Process, Settings, SameAcks, Hears, SndOk, CcOk;
    ItsOwnAcks(t);
    match op
    case DoConnect(now, w) => ConnectSameAcks(t, now, w);
    case DoSend(data, now, w) => SendSameAcks(t, data, now, w);
    case DoReceive(n, now, w) => ReceiveSameAcks(t, n, now, w);
    case DoClock(now, w) => ClockSameAcks(t, now, w);
    case Arrives(p, now, w) => UnheardSameAcks(t, p, now, w);
    case _ => if Advisable(op) { SettingsSameAcks(t, op); }
  }

  lemma HearingKeepsNxt(t: Tcb, p: Packet, now: nat)
    requires Wf(t)
    ensures Hearing(t, p, now).snd.nxt == t.snd.nxt
  {
    hide Control, SndOk, CcOk;
    ControlKeepsNxt(Received(t, now), p);
  }

  lemma ControlKeepsNxt(t: Tcb, p: Packet)
    requires Wf(t)
    ensures Control(t, p).t.snd.nxt == t.snd.nxt
  {
    hide OptionsOf, SndOk, CcOk, Quiet, ApplyOptions, Shake, Armed, Steady;
    if HasCtl(p.flags) && p.data != [] {
      ShakeKeepsNxt(ApplyOptions(t, OptionsOf(p)));
    }
  }

  lemma ShakeKeepsNxt(t: Tcb)
    requires Wf(t)
    ensures Shake(t).snd.nxt == t.snd.nxt
  {
    hide SndOk, CcOk, Quiet;
  }

  lemma RetransmitKeepsNxt(t: Tcb, now: nat, w: Writer)
    requires Wf(t) && t.snd.una < t.snd.nxt
    ensures Retransmit(t, now, w).t.snd.nxt == t.snd.nxt
  {
    FrontInFlight(t.snd.slist, t.snd.una, t.snd.nxt, t.snd.una + t.snd.buf.len);
    hide SendLoop, Segs, CcOk, Quiet, Steady;
  }

  ghost predicate Tells(r: Acked, e: Episode) {
    if r.Dropped? then r.t.state.Closed? else r.t.cc.dupAcks == e.count % 256 && r.t.cc.recover == e.mark
  }

  lemma ProgressTells(t: Tcb, k: nat, now: nat, w: Writer, e: Episode)
    requires Wf(t) && t.cc.dupAcks == e.count % 256 && t.cc.recover == e.mark
    ensures Tells(Progress(t, k, now, w), if Finishes(e, t.snd.una) then e.(count := 0) else e)
  {
    hide Retransmit, Keeps, SndOk, CcOk;
  }

  lemma NewAckTells(t: Tcb, p: Packet, now: nat, w: Writer, e: Episode)
    requires Wf(t) && t.cc.dupAcks == e.count % 256 && t.cc.recover == e.mark && t.snd.una < p.ack <= t.snd.nxt
    ensures Tells(NewAck(t, p, now, w), if Finishes(e, p.ack) then e.(count := 0) else e)
  {
    hide Progress, Freed, TimeDiff32, Quiet, Tells, Segs;
    ProgressTells(AckBytes(t.(tm := EstimateFrom(t.tm, p, now)), p, now), p.ack - t.snd.una, now, w, e);
  }

  lemma CountTells(t: Tcb, now: nat, w: Writer, k: nat, mark: nat)
    requires Wf(t) && t.snd.una < t.snd.nxt && t.cc.dupAcks == k % 256 && t.cc.recover == mark
    ensures Tells(CountDuplicate(t, now, w), Episode(k, if k % 256 == 3 then t.snd.nxt else mark))
  {
    hide Retransmit, Keeps, SndOk, CcOk, Quiet, InFlight;
    if t.cc.dupAcks == 3 {
      RetransmitKeepsNxt(t, now, w);
      var r := Retransmit(t, now, w);
      if r.Fine? {
        EntersAtNxt(t, r.t, now, w);
      }
    }
  }

  lemma EntersAtNxt(t: Tcb, u: Tcb, now: nat, w: Writer)
    requires Wf(t) && t.snd.una < t.snd.nxt && Retransmit(t, now, w) == Fine(u) && u.snd.nxt == t.snd.nxt
    ensures Wf(u) && EnterRecovery(u).cc.recover == t.snd.nxt && EnterRecovery(u).cc.dupAcks == t.cc.dupAcks
  {
    hide Transmit, SndOk, CcOk, Quiet, InFlight;
  }

  lemma RepeatedTells(t: Tcb, bare: bool, now: nat, w: Writer, e: Episode)
    requires Wf(t) && t.cc.dupAcks == e.count % 256 && t.cc.recover == e.mark
    ensures Tells(Repeated(t, bare, now, w),
                  if !bare then e else if t.snd.una == t.snd.nxt then e.(count := 0)
                  else Episode(e.count + 1, if (e.count + 1) % 256 == 3 then t.snd.nxt else e.mark))
  {
    EndIsLast(t.snd.slist, t.snd.una, t.snd.nxt, t.snd.una + t.snd.buf.len);
    hide CountDuplicate, Keeps, SndOk, CcOk;
    OneMoreTurn(e.count);
    if bare && t.snd.una < t.snd.nxt {
      CountTells(t.(cc := t.cc.(dupAcks := (t.cc.dupAcks + 1) % 256)), now, w, e.count + 1, e.mark);
    }
  }

  lemma AcknowledgeTells(t: Tcb, p: Packet, now: nat, w: Writer, e: Episode)
    requires Wf(t) && t.cc.dupAcks == e.count % 256 && t.cc.recover == e.mark
    ensures Tells(Acknowledge(t, p, now, w), Observed(t, e, p))
  {
    hide NewAck, Repeated, WindowOf, Segs, CcOk, Tells, Finishes;
    if t.snd.una < p.ack <= t.snd.nxt {
      NewAckTells(t, p, now, w, e);
    } else if p.ack == t.snd.una {
      RepeatedTells(t.(snd := t.snd.(wnd := WindowOf(p, t.snd.scale))), p.data == [], now, w, e);
    } else {
      hide Acknowledge;
      NothingTold(t, p, now, w, e);
    }
  }

  lemma NothingTold(t: Tcb, p: Packet, now: nat, w: Writer, e: Episode)
    requires Wf(t) && t.cc.dupAcks == e.count % 256 && t.cc.recover == e.mark
    requires !(t.snd.una < p.ack <= t.snd.nxt) && p.ack != t.snd.una
    ensures Acknowledge(t, p, now, w) == Fine(t) && Tells(Acknowledge(t, p, now, w), Observed(t, e, p))
  {
  }

  lemma HeardFollows(t: Tcb, e: Episode, p: Packet, now: nat, w: Writer)
    requires Wf(t) && Hears(t, p, now) && Follows(t, e)
    ensures Follows(Process(t, p, now, w).1, Observed(t, e, p))
  {
    HearingSameAcks(t, p, now);
    HearingKeepsNxt(t, p, now);
    var h := Hearing(t, p, now);
    HeardProcess(t, p, now, w);
    hide Process, Hearing, Acknowledge, Observed, SndOk, CcOk;
    assert !t.state.Closed?;
    AcknowledgeTells(h, p, now, w, e);
    ObservesTheSame(t, h, e, p);
  }

  lemma ObservesTheSame(t: Tcb, u: Tcb, e: Episode, p: Packet)
    requires u.snd.una == t.snd.una && u.snd.nxt == t.snd.nxt
    ensures Observed(u, e, p) == Observed(t, e, p)
  {
  }

  lemma SameAcksFollow(t: Tcb, u: Tcb, e: Episode)
    requires SameAcks(t, u) && Follows(t, e)
    ensures Follows(u, e)
  {
  }

  lemma ThenFollows(t: Tcb, e: Episode, op: Op)
    requires Wf(t) && Follows(t, e)
    ensures Follows(Then(t, op), if IsHeard(t, op) then Observed(t, e, op.p) else e)
  {
    hide Then, Hears, Observed, Follows, Process, Wf;
    if IsHeard(t, op) {
      ThenProcesses(t, op);
      HeardFollows(t, e, op.p, op.now, op.w);
    } else {
      ThenSameAcks(t, op);
      SameAcksFollow(t, Then(t, op), e);
    }
  }

  /** The observer is right at the end of any run, whatever else is called and arrives. */
  lemma {:induction false} RunFollows(t: Tcb, ops: seq<Op>)
    requires Wf(t) && t.cc.dupAcks < 256
    ensures Follows(After(t, ops), Watched(t, ops))
  {
    if ops != [] {
      var before := ops[..|ops| - 1];
      RunFollows(t, before);
      hide Then, Follows, Observed, IsHeard, Wf;
      ThenFollows(After(t, before), Watched(t, before), ops[|ops| - 1]);
    }
  }

  /** The congestion window is not above the threshold. */
  predicate IsDeflated(c: Cc) { c.cwnd <= c.ssthresh }

  /** The congestion window is not above the threshold, or the two segments that sending allows after
      a fallback. */
  predicate Deflates(c: Cc) { c.cwnd <= Max(c.ssthresh, 2 * c.mss) }

  lemma ExitDeflates(t: Tcb, k: nat, now: nat, w: Writer)
    requires Wf(t) && t.cc.dupAcks >= 3 && t.snd.una >= t.cc.recover
    ensures var r := Progress(t, k, now, w); r.Fine? && IsDeflated(r.t.cc)
  {
    hide Keeps, SndOk, Quiet, Retransmit;
  }

  lemma NewAckDeflates(t: Tcb, p: Packet, now: nat, w: Writer)
    requires Wf(t) && t.cc.dupAcks >= 3 && t.snd.una < p.ack <= t.snd.nxt && p.ack >= t.cc.recover
    ensures var r := Acknowledge(t, p, now, w); r.Fine? && IsDeflated(r.t.cc)
  {
    hide Progress, Freed, TimeDiff32, Quiet, Segs, IsDeflated;
    ExitDeflates(AckBytes(t.(tm := EstimateFrom(t.tm, p, now)), p, now), p.ack - t.snd.una, now, w);
  }

  lemma AfterAckDeflates(t: Tcb, connect: bool)
    requires Wf(t) && IsDeflated(t.cc)
    ensures IsDeflated(AfterAck(t, connect).cc)
  {
    hide Establish, IsDeflated, SndOk, CcOk, Armed;
    RefillKeeps(t);
    if t.state.ReceivedSyn? && !connect {
      EstablishDeflates(t);
      RefillKeeps(Establish(t));
    }
  }

  lemma EstablishDeflates(t: Tcb)
    requires Wf(t) && IsDeflated(t.cc)
    ensures IsDeflated(Establish(t).cc)
  {
    hide SndOk, Armed, Quiet;
  }

  lemma SendingDeflates(t: Tcb, flags: SendFlags, now: nat, w: Writer)
    requires Wf(t) && IsDeflated(t.cc)
    ensures Deflates(AttemptSend(t, flags, now, w).cc)
  {
    AttemptSendsNew(t, flags, now, w);
    hide AttemptSend, SndOk, PutsOut, Idle, Restarted, Reach;
  }

  lemma PayloadDeflates(t: Tcb, p: Packet, now: nat, w: Writer)
    requires Wf(t) && IsDeflated(t.cc)
    ensures Deflates(Payload(t, p, now, w).1.cc)
  {
    var v := ArriveAt(t, p);
    var x := WithRcv(t, v.rcv, v.halted);
    hide ArriveAt, AttemptSend, ReplyFlags, SndOk, Segs, Quiet;
    SendingDeflates(x, if v.recovered then ImmediateAck else ReplyFlags(t, p), now, w);
  }

  lemma RestDeflates(t: Tcb, p: Packet, connect: bool, now: nat, w: Writer)
    requires Wf(t) && IsDeflated(t.cc)
    ensures Deflates(Rest(t, p, connect, now, w).1.cc)
  {
    hide AfterAck, Payload, Deflates, IsDeflated, SndOk, CcOk;
    AfterAckDeflates(t, connect);
    PayloadDeflates(AfterAck(t, connect), p, now, w);
  }

  /** Processing is the acknowledgment of the packet and what follows. */
  lemma ProcessIs(t: Tcb, p: Packet, now: nat, w: Writer)
    requires Wf(t) && Hears(t, p, now)
    ensures var c := Control(Received(t, now), p);
            var r := Acknowledge(Hearing(t, p, now), p, now, w);
            && c.Accept?
            && (r.Dropped? ==> Process(t, p, now, w).1 == r.t)
            && (r.Fine? ==> Process(t, p, now, w).1 == Rest(r.t, p, c.connect, now, w).1)
  {
    ProcessHandles(t, p, now, w);
    hide Process, Control, Acknowledge, Stamp, Rest, SndOk, CcOk, Keeps, Renegotiates;
  }

  lemma ProcessDeflates(t: Tcb, p: Packet, now: nat, w: Writer)
    requires Wf(t) && Hears(t, p, now)
    requires t.cc.dupAcks >= 3 && t.snd.una < p.ack <= t.snd.nxt && p.ack >= t.cc.recover
    ensures Deflates(Process(t, p, now, w).1.cc)
  {
    ProcessIs(t, p, now, w);
    HearingSameAcks(t, p, now);
    HearingKeepsNxt(t, p, now);
    hide Process, Control, Acknowledge, Rest, Hearing, Hears, Deflates, IsDeflated, SndOk, CcOk;
    NewAckDeflates(Hearing(t, p, now), p, now, w);
    RestDeflates(Acknowledge(Hearing(t, p, now), p, now, w).t, p, Control(Received(t, now), p).connect, now, w);
  }

  /** The end of recovery: after any calls and packets, each at its own time, a new acknowledgment
      sets the count of duplicates to 0 exactly when it covers the mark or the duplicates in a row,
      modulo 256, are fewer than three. Otherwise recovery goes on for the same mark. When it ends
      by the mark, the window falls to the threshold. */
  lemma RecoveryEndsExactly(t: Tcb, ops: seq<Op>, p: Packet, now: nat, w: Writer)
    requires Wf(t) && t.cc.dupAcks < 256
    ensures var (u, e) := (After(t, ops), Watched(t, ops));
            var v := Process(u, p, now, w).1;
            Hears(u, p, now) && u.snd.una < p.ack <= u.snd.nxt && !v.state.Closed? ==>
              && u.cc.dupAcks == e.count % 256 && u.cc.recover == e.mark
              && (v.cc.dupAcks == 0 <==> e.count % 256 < 3 || p.ack >= e.mark)
              && (v.cc.dupAcks != 0 ==> v.cc.dupAcks == e.count % 256 && v.cc.recover == e.mark)
              && (e.count % 256 >= 3 && p.ack >= e.mark ==> Deflates(v.cc))
  {
    RunFollows(t, ops);
    var u, e := After(t, ops), Watched(t, ops);
    hide After, Watched, Process, Hears, Deflates, Wf;
    if Hears(u, p, now) && u.snd.una < p.ack <= u.snd.nxt {
      HeardIsOpen(u, p, now);
      HeardFollows(u, e, p, now, w);
      if e.count % 256 >= 3 && p.ack >= e.mark {
        ProcessDeflates(u, p, now, w);
      }
    }
  }

  lemma HeardIsOpen(t: Tcb, p: Packet, now: nat)
    requires Wf(t) && Hears(t, p, now)
    ensures !t.state.Closed? && !t.halted
  {
  }

  // ---- Which mark applies ----

  /** Call `j` of a run is a duplicate that makes the count 3 modulo 256. */
  predicate Begins(t: Tcb, ops: seq<Op>, j: nat)
    requires Wf(t) && j < |ops|
  {
    BeginsAt(After(t, ops[..j]), Watched(t, ops[..j]), ops[j])
  }

  predicate BeginsAt(t: Tcb, e: Episode, op: Op)
    requires Wf(t)
  {
    && IsHeard(t, op) && op.p.ack == t.snd.una != t.snd.nxt && op.p.data == []
    && (e.count + 1) % 256 == 3
  }

  lemma MarkAt(t: Tcb, e: Episode, op: Op)
    requires Wf(t)
    ensures (if IsHeard(t, op) then Observed(t, e, op.p) else e).mark ==
            if BeginsAt(t, e, op) then t.snd.nxt else e.mark
  {
    hide Hears;
  }

  lemma BeginsInPrefix(t: Tcb, ops: seq<Op>, j: nat)
    requires Wf(t) && j < |ops| - 1
    ensures Begins(t, ops[..|ops| - 1], j) == Begins(t, ops, j)
  {
    hide After, Watched, BeginsAt, Wf;
    assert ops[..|ops| - 1][..j] == ops[..j];
  }

  /** The mark is the end of what was in flight at the latest call that began recovery, also after
      the count has wrapped. */
  lemma {:induction false} MarkIsLatest(t: Tcb, ops: seq<Op>) returns (j: int)
    requires Wf(t)
    ensures -1 <= j < |ops| && forall i :: j < i < |ops| ==> !Begins(t, ops, i)
    ensures j == -1 ==> Watched(t, ops).mark == t.cc.recover
    ensures j >= 0 ==> Begins(t, ops, j) && Watched(t, ops).mark == After(t, ops[..j]).snd.nxt
  {
    hide After, Watched, Begins, Wf;
    if ops == [] {
      j := -1;
      NothingWatched(t);
    } else {
      var n, before := |ops| - 1, ops[..|ops| - 1];
      j := MarkIsLatest(t, before);
      forall i | 0 <= i < n ensures Begins(t, before, i) == Begins(t, ops, i) {
        BeginsInPrefix(t, ops, i);
      }
      MarkOfNext(t, ops);
      if Begins(t, ops, n) {
        j := n;
      } else if j >= 0 {
        assert before[..j] == ops[..j];
      }
    }
  }

  lemma NothingWatched(t: Tcb)
    requires Wf(t)
    ensures Watched(t, []).mark == t.cc.recover
  {
  }

  lemma MarkOfNext(t: Tcb, ops: seq<Op>)
    requires Wf(t) && ops != []
    ensures var n := |ops| - 1;
            Watched(t, ops).mark ==
            if Begins(t, ops, n) then After(t, ops[..n]).snd.nxt else Watched(t, ops[..n]).mark
  {
    hide After, BeginsAt, IsHeard, Observed, Wf;
    var before := ops[..|ops| - 1];
    MarkAt(After(t, before), Watched(t, before), ops[|ops| - 1]);
  }

  // ---- As long as the count does not wrap ----

  predicate IsBare(op: Op) { op.Arrives? && op.p.data == [] }

  /** How many packets without payload arrive. */
  function Bare(ops: seq<Op>): nat {
    if ops == [] then 0 else Bare(ops[..|ops| - 1]) + if IsBare(ops[|ops| - 1]) then 1 else 0
  }

  predicate AllBelow(ops: seq<Op>, begin: nat) {
    forall k :: 0 <= k < |ops| ==> ops[k].Arrives? ==> ops[k].p.ack < begin
  }

  /** Recovery for `begin` goes on, and at most `n` duplicates were counted since its begin. */
  predicate Recovering(t: Tcb, e: Episode, begin: nat, n: nat) {
    e.mark == begin && 3 <= e.count <= 3 + n && t.snd.una < begin <= t.snd.nxt
  }

  lemma AcknowledgeMoves(t: Tcb, p: Packet, now: nat, w: Writer)
    requires Wf(t)
    ensures var u := Acknowledge(t, p, now, w).t;
            u.snd.una == (if t.snd.una < p.ack <= t.snd.nxt then p.ack else t.snd.una) && t.snd.nxt <= u.snd.nxt
  {
    hide Progress, Repeated, Freed, TimeDiff32, Quiet, Segs, WindowOf, CcOk, Roomy;
  }

  lemma HeardMoves(t: Tcb, p: Packet, now: nat, w: Writer)
    requires Wf(t) && Hears(t, p, now)
    ensures var u := Process(t, p, now, w).1;
            u.snd.una == (if t.snd.una < p.ack <= t.snd.nxt then p.ack else t.snd.una) && t.snd.nxt <= u.snd.nxt
  {
    HearingSameAcks(t, p, now);
    HearingKeepsNxt(t, p, now);
    HeardProcess(t, p, now, w);
    hide Process, Hearing, Acknowledge, SndOk, CcOk;
    AcknowledgeMoves(Hearing(t, p, now), p, now, w);
  }

  /** One call further. */
  function WatchedNext(t: Tcb, e: Episode, op: Op): Episode
    requires Wf(t)
  {
    if IsHeard(t, op) then Observed(t, e, op.p) else e
  }

  lemma ObservedRecovers(t: Tcb, e: Episode, p: Packet, begin: nat, n: nat)
    requires Recovering(t, e, begin, n) && p.ack < begin && 3 + n + (if p.data == [] then 1 else 0) < 256
    ensures var d := Observed(t, e, p);
            d.mark == begin && 3 <= d.count <= 3 + n + (if p.data == [] then 1 else 0)
  {
  }

  lemma ThenRecovers(t: Tcb, e: Episode, op: Op, begin: nat, n: nat)
    requires Wf(t) && Recovering(t, e, begin, n) && (op.Arrives? ==> op.p.ack < begin)
    requires 3 + n + (if IsBare(op) then 1 else 0) < 256
    ensures Recovering(Then(t, op), WatchedNext(t, e, op), begin, n + if IsBare(op) then 1 else 0)
  {
    hide Then, Hears, Observed, Process, Wf;
    if IsHeard(t, op) {
      ThenProcesses(t, op);
      HeardMoves(t, op.p, op.now, op.w);
      ObservedRecovers(t, e, op.p, begin, n);
    } else {
      ThenSameAcks(t, op);
    }
  }

  lemma {:induction false} RecoversOn(t: Tcb, ops: seq<Op>, begin: nat)
    requires Wf(t) && t.cc.dupAcks == 3 && t.cc.recover == begin && t.snd.una < begin <= t.snd.nxt
    requires Bare(ops) < 253 && AllBelow(ops, begin)
    ensures Recovering(After(t, ops), Watched(t, ops), begin, Bare(ops))
  {
    if ops != [] {
      var before, last := ops[..|ops| - 1], ops[|ops| - 1];
      assert AllBelow(before, begin) && (last.Arrives? ==> last.p.ack < begin);
      RecoversOn(t, before, begin);
      hide Then, Recovering, IsHeard, Observed, Wf;
      ThenRecovers(After(t, before), Watched(t, before), last, begin, Bare(before));
    }
  }

  lemma DuplicateIsHeard(t: Tcb, p: Packet, now: nat)
    requires Wf(t) && !t.halted && !t.state.Closed? && Duplicate(t, p)
    ensures Hears(t, p, now)
  {
    hide SndOk, CcOk;
  }

  lemma ThirdObserved(t: Tcb, p: Packet)
    requires t.snd.una < t.snd.nxt && Duplicate(t, p)
    ensures Observed(t, Episode(2, t.cc.recover), p) == Episode(3, t.snd.nxt)
  {
  }

  lemma ThirdRecovers(t: Tcb, third: Op)
    requires Wf(t) && !t.halted && !t.state.Closed? && t.snd.una < t.snd.nxt && t.cc.dupAcks == 2
    requires third.Arrives? && Duplicate(t, third.p)
    ensures var u := Then(t, third);
            && (u.state.Closed? || (u.cc.dupAcks == 3 && u.cc.recover == t.snd.nxt))
            && u.snd.una == t.snd.una && t.snd.nxt <= u.snd.nxt
  {
    hide Then, Process, Hears, Observed, Wf;
    DuplicateIsHeard(t, third.p, third.now);
    ThirdObserved(t, third.p);
    ThenProcesses(t, third);
    ThenFollows(t, Episode(2, t.cc.recover), third);
    HeardMoves(t, third.p, third.now, third.w);
  }

  lemma {:induction false} ClosedForGood(t: Tcb, ops: seq<Op>)
    requires Wf(t) && t.state.Closed?
    ensures After(t, ops).state.Closed?
  {
    if ops != [] {
      ClosedForGood(t, ops[..|ops| - 1]);
      hide Then, Wf;
      var u := After(t, ops[..|ops| - 1]);
      ClosedHearsNothing(u, ops[|ops| - 1]);
      ThenSameAcks(u, ops[|ops| - 1]);
    }
  }

  lemma ClosedHearsNothing(t: Tcb, op: Op)
    requires Wf(t) && t.state.Closed?
    ensures !IsHeard(t, op)
  {
  }

  /** NewReno, section 3.2 of RFC 6582: until the count wraps, that is with at most 252 packets
      without payload after the third duplicate, and whatever else is called and arrives,
      recovery ends exactly with the first acknowledgment of all that was in flight at the third
      duplicate. */
  lemma RecoveryEndsAtBegin(t: Tcb, third: Op, ops: seq<Op>, p: Packet, now: nat, w: Writer)
    requires Wf(t) && !t.halted && !t.state.Closed? && t.snd.una < t.snd.nxt && t.cc.dupAcks == 2
    requires third.Arrives? && Duplicate(t, third.p)
    requires Bare(ops) < 253 && AllBelow(ops, t.snd.nxt)
    ensures var u := After(Then(t, third), ops);
            var v := Process(u, p, now, w).1;
            Hears(u, p, now) && u.snd.una < p.ack <= u.snd.nxt && !v.state.Closed? ==>
              u.snd.una < t.snd.nxt && (v.cc.dupAcks == 0 <==> p.ack >= t.snd.nxt)
  {
    hide After, Then, Process, Hears, Watched, Deflates, Wf;
    ThirdRecovers(t, third);
    var t1 := Then(t, third);
    if t1.state.Closed? {
      ClosedForGood(t1, ops);
      ClosedHears(After(t1, ops), p, now);
    } else {
      RecoversOn(t1, ops, t.snd.nxt);
      RecoveryEndsExactly(t1, ops, p, now, w);
    }
  }

  lemma ClosedHears(t: Tcb, p: Packet, now: nat)
    requires Wf(t) && t.state.Closed?
    ensures !Hears(t, p, now)
  {
  }
}
