/** The bytes of a packet: the header that `buildPacket` writes and `parsePacket` reads. */
module TcpWire {
  import opened FifoBuffers
  import opened TcpSegments
  import opened TcpTypes
  import opened TcpReceiver
  import opened TcpEndpoint

  /** A number as four bytes, the highest first. */
  function LongToBytes(n: nat): (b: seq<byte>)
    requires n < U32
    ensures |b| == 4
  {
    [n / 256 / 256 / 256, n / 256 / 256 % 256, n / 256 % 256, n % 256]
  }

  function BytesToLong(b: seq<byte>): (n: nat)
    requires |b| == 4
    ensures n < U32
  {
    var (b0: nat, b1: nat, b2: nat, b3: nat) := (b[0], b[1], b[2], b[3]);
    256 * (256 * (256 * b0 + b1) + b2) + b3
  }

  function ShortToBytes(n: nat): (b: seq<byte>)
    requires n < 0x10000
    ensures |b| == 2
  {
    [n / 256, n % 256]
  }

  function BytesToShort(b: seq<byte>): (n: nat)
    requires |b| == 2
    ensures n < 0x10000
  {
    var (b0: nat, b1: nat) := (b[0], b[1]);
    256 * b0 + b1
  }

  lemma LongComesBack(n: nat)
    requires n < U32
    ensures BytesToLong(LongToBytes(n)) == n
  {
    var a := n / 256;
    var b := a / 256;
    assert n == 256 * a + n % 256;
    assert a == 256 * b + a % 256;
  }

  /** The highest byte comes first. */
  lemma HighestByteFirst(n: nat)
    requires n < U32
    ensures var b := LongToBytes(n);
            var (b0: nat, b1: nat, b2: nat, b3: nat) := (b[0], b[1], b[2], b[3]);
            n == 0x100_0000 * b0 + 0x1_0000 * b1 + 0x100 * b2 + b3
  {
    var a := n / 256;
    var b := a / 256;
    assert n == 256 * a + n % 256;
    assert a == 256 * b + a % 256;
    assert b == 256 * (b / 256) + b % 256;
  }

  lemma QuotientAndRest(q: nat, r: nat)
    requires r < 256
    ensures (256 * q + r) / 256 == q && (256 * q + r) % 256 == r
  {
  }

  lemma BytesComeBack(b: seq<byte>)
    requires |b| == 4
    ensures LongToBytes(BytesToLong(b)) == b
  {
    var (b0: nat, b1: nat, b2: nat, b3: nat) := (b[0], b[1], b[2], b[3]);
    QuotientAndRest(256 * (256 * b0 + b1) + b2, b3);
    QuotientAndRest(256 * b0 + b1, b2);
    QuotientAndRest(b0, b1);
  }

  lemma ShortComesBack(n: nat)
    requires n < 0x10000
    ensures BytesToShort(ShortToBytes(n)) == n
  {
  }

  lemma ShortBytesComeBack(b: seq<byte>)
    requires |b| == 2
    ensures ShortToBytes(BytesToShort(b)) == b
  {
    QuotientAndRest(b[0], b[1]);
  }

  /** The fields fit their places in the header. */
  predicate InRange(p: Packet) {
    && p.conv < U32 && p.seqno < U32 && p.ack < U32 && p.flags < 256 && p.wnd < 0x10000
    && p.tsval < U32 && p.tsecr < U32 && HEADER_SIZE + |p.data| <= MAX_PACKET
  }

  function Encode(p: Packet): (b: seq<byte>)
    requires InRange(p)
    ensures |b| == HEADER_SIZE + |p.data|
  {
    LongToBytes(p.conv) + LongToBytes(p.seqno) + LongToBytes(p.ack) + [0, p.flags] + ShortToBytes(p.wnd)
    + LongToBytes(p.tsval) + LongToBytes(p.tsecr) + p.data
  }

  datatype Arrived = Accepted(p: Packet) | Rejected

  /** Too short or too long a packet is not looked at; byte 12 is ignored. */
  function Parse(b: seq<byte>): Arrived {
    if |b| > MAX_PACKET || |b| < HEADER_SIZE then Rejected
    else Accepted(Packet(BytesToLong(b[0..4]), BytesToLong(b[4..8]), BytesToLong(b[8..12]),
                         b[13], BytesToShort(b[14..16]),
                         BytesToLong(b[16..20]), BytesToLong(b[20..24]), b[24..]))
  }

  lemma FieldsOf(p: Packet)
    requires InRange(p)
    ensures var b := Encode(p);
            && b[0..4] == LongToBytes(p.conv) && b[4..8] == LongToBytes(p.seqno) && b[8..12] == LongToBytes(p.ack)
            && b[13] == p.flags && b[14..16] == ShortToBytes(p.wnd)
            && b[16..20] == LongToBytes(p.tsval) && b[20..24] == LongToBytes(p.tsecr) && b[24..] == p.data
  {
    hide LongToBytes, ShortToBytes;
  }

  /** What is written is read. */
  lemma PacketComesBack(p: Packet)
    requires InRange(p)
    ensures Parse(Encode(p)) == Accepted(p)
  {
    FieldsOf(p);
    LongComesBack(p.conv);
    LongComesBack(p.seqno);
    LongComesBack(p.ack);
    ShortComesBack(p.wnd);
    LongComesBack(p.tsval);
    LongComesBack(p.tsecr);
    hide Encode, LongToBytes, ShortToBytes, BytesToLong, BytesToShort;
  }

  /** What is accepted was written so, up to byte 12. */
  lemma AcceptedWasEncoded(b: seq<byte>)
    ensures Parse(b).Accepted? ==> InRange(Parse(b).p) && Encode(Parse(b).p) == b[12 := 0]
    ensures Parse(b).Rejected? <==> |b| < HEADER_SIZE || |b| > MAX_PACKET
  {
    if Parse(b).Accepted? {
      BytesComeBack(b[0..4]);
      BytesComeBack(b[4..8]);
      BytesComeBack(b[8..12]);
      ShortBytesComeBack(b[14..16]);
      BytesComeBack(b[16..20]);
      BytesComeBack(b[20..24]);
      hide LongToBytes, ShortToBytes, BytesToLong, BytesToShort;
      assert b[12 := 0] == b[0..4] + b[4..8] + b[8..12] + [0, b[13]] + b[14..16] + b[16..20] + b[20..24] + b[24..];
    }
  }

  // ---- The options of a connect message ----

  /** An option: one byte that means nothing, or a kind with its content. */
  datatype Opt = Noop | Opt(kind: byte, content: seq<byte>)

  predicate Writable(o: Opt) {
    o.Opt? ==> o.kind != TCP_OPT_EOL && o.kind != TCP_OPT_NOOP && |o.content| < 256
  }

  predicate AllWritable(os: seq<Opt>) { forall o :: o in os ==> Writable(o) }

  function OptBytes(o: Opt): seq<byte>
    requires Writable(o)
  {
    if o.Noop? then [TCP_OPT_NOOP] else [o.kind, |o.content|] + o.content
  }

  function AllBytes(os: seq<Opt>): seq<byte>
    requires AllWritable(os)
  {
    if os == [] then [] else OptBytes(os[0]) + AllBytes(os[1..])
  }

  /** The last scale that is given in one byte. */
  function LastScale(os: seq<Opt>, scale: seq<nat>): seq<nat> {
    if os == [] then scale
    else
      var o := os[0];
      LastScale(os[1..], if o.Opt? && o.kind == TCP_OPT_WND_SCALE && |o.content| == 1 then [o.content[0]] else scale)
  }

  predicate OffersScale(os: seq<Opt>) {
    os != [] && ((os[0].Opt? && os[0].kind == TCP_OPT_WND_SCALE) || OffersScale(os[1..]))
  }

  lemma {:induction false} NoScale(os: seq<Opt>, scale: seq<nat>)
    requires !OffersScale(os)
    ensures LastScale(os, scale) == scale
  {
    if os != [] {
      NoScale(os[1..], scale);
    }
  }

  /** What follows the options: nothing, or the end mark and anything. */
  predicate Ends(rest: seq<byte>) { rest == [] || rest[0] == TCP_OPT_EOL }

  /** One option that is there, or whose content is cut off. */
  lemma OneOption(o: Opt, rest: seq<byte>, from: Options)
    requires Writable(o)
    ensures ParseOptions(OptBytes(o) + rest, from) ==
            ParseOptions(rest,
              if o.Opt? && o.kind == TCP_OPT_WND_SCALE
              then from.(offered := true, scale := if |o.content| == 1 then [o.content[0]] else from.scale)
              else from)
  {
    var d := OptBytes(o) + rest;
    if o.Opt? {
      assert d[2..] == o.content + rest;
      assert (o.content + rest)[|o.content|..] == rest;
    } else {
      assert d[1..] == rest;
    }
  }

  /** Whatever options come, in any order and of any kind: the window scale is offered exactly when one
      of them is of that kind, and is that of the last that has one byte. */
  lemma {:induction false} OptionsAreRead(os: seq<Opt>, rest: seq<byte>, from: Options)
    requires AllWritable(os) && Ends(rest)
    ensures ParseOptions(AllBytes(os) + rest, from) ==
            from.(scale := LastScale(os, from.scale), offered := from.offered || OffersScale(os))
  {
    if os == [] {
      assert AllBytes(os) + rest == rest;
    } else {
      var o := os[0];
      assert AllBytes(os) + rest == OptBytes(o) + (AllBytes(os[1..]) + rest);
      OneOption(o, AllBytes(os[1..]) + rest, from);
      OptionsAreRead(os[1..], rest,
        if o.Opt? && o.kind == TCP_OPT_WND_SCALE
        then from.(offered := true, scale := if |o.content| == 1 then [o.content[0]] else from.scale)
        else from);
      hide ParseOptions, OptBytes;
    }
  }

  /** A connect message teaches the scale of its options. Without a scale option the endpoint stops to
      scale, and its receive buffer shrinks to the default size, unless it does not scale anyway. */
  lemma ConnectTeachesScale(t: Tcb, p: Packet, os: seq<Opt>, rest: seq<byte>)
    requires Wf(t) && AllWritable(os) && Ends(rest)
    requires HasCtl(p.flags) && p.data == [CTL_CONNECT] + (AllBytes(os) + rest)
    ensures var u := ApplyOptions(t, OptionsOf(p));
            var last := LastScale(os, []);
            if OffersScale(os) || t.rcv.scale == 0
            then u == t.(snd := t.snd.(scale := if last == [] then t.snd.scale else last[0]))
            else
              && u.snd == t.snd.(scale := 0)
              && if t.rcv.buf.len <= DEFAULT_RCV_BUF_SIZE
                 then ShrinksTo(t.rcv, u.rcv, DEFAULT_RCV_BUF_SIZE) else u.halted
  {
    hide ParseOptions, AllBytes, LastScale, Reverted, ShrinksTo, Wf;
    assert p.data[1..] == AllBytes(os) + rest;
    OptionsAreRead(os, rest, Options([], false, false));
    RevertedShrinks(t);
    ScaleReverts(t, LastScale(os, []));
    if !OffersScale(os) {
      NoScale(os, []);
    }
  }

  /** The receive buffer has another size, and is not scaled; what it holds stays. */
  predicate ShrinksTo(r: Rcv, q: Rcv, size: nat) {
    q.scale == 0 && q.buf.Valid() && r.buf.Valid() && |q.buf.slots| == size && q.buf.Data() == r.buf.Data()
  }

  lemma RevertedShrinks(t: Tcb)
    requires Wf(t)
    ensures var u := Reverted(t);
            && u.snd == t.snd.(scale := 0)
            && if t.rcv.buf.len <= DEFAULT_RCV_BUF_SIZE then ShrinksTo(t.rcv, u.rcv, DEFAULT_RCV_BUF_SIZE) else u.halted
  {
    hide SndOk, CcOk;
    assert Pow2(0) == 1;
    assert ScaledSize(DEFAULT_RCV_BUF_SIZE) == (DEFAULT_RCV_BUF_SIZE, 0);
    hide ScaledSize;
    var b := t.rcv.buf;
    if b.len <= DEFAULT_RCV_BUF_SIZE {
      assert b.Resize(DEFAULT_RCV_BUF_SIZE).Data() == b.Data();
    }
  }

  lemma ScaleReverts(t: Tcb, scale: seq<nat>)
    requires Wf(t)
    ensures scale != [] ==> Wf(t.(snd := t.snd.(scale := scale[0])))
  {
  }
}
