/** The receiving end of a direction: arriving packets keep flow control, and the buffer keeps
    the stream in order whatever the order of arrival. */
module TcpReassembly {
  import opened FifoBuffers
  import opened TcpSegments
  import opened TcpTypes
  import opened TcpReceiver
  import opened TcpLink

  // ---- The list of stretches ----

  lemma {:induction false} InsertMembers(l: seq<RSegment>, e: RSegment)
    ensures |Insert(l, e)| == |l| + 1
    ensures forall k :: 0 <= k < |Insert(l, e)| ==> Insert(l, e)[k] == e || Insert(l, e)[k] in l
  {
    if l != [] && l[0].seqno < e.seqno {
      InsertMembers(l[1..], e);
      var r := Insert(l, e);
      forall k | 0 <= k < |r| ensures r[k] == e || r[k] in l {
        assert k > 0 ==> r[k] == Insert(l[1..], e)[k - 1];
      }
    }
  }

  lemma {:induction false} InsertSorts(l: seq<RSegment>, e: RSegment)
    requires Sorted(l)
    ensures Sorted(Insert(l, e))
  {
    if l != [] && l[0].seqno < e.seqno {
      InsertSorts(l[1..], e);
      InsertMembers(l[1..], e);
      var r, t := Insert(l, e), Insert(l[1..], e);
      forall i, j | 0 <= i < j < |r| ensures r[i].seqno <= r[j].seqno {
        assert r[j] == t[j - 1];
        assert t[j - 1] == e || t[j - 1] in l[1..];
        assert i > 0 ==> r[i] == t[i - 1];
      }
    }
  }

  // ---- Flow control ----

  /** Arrivals move `nxt` and the edge forward only. */
  ghost predicate Forward(r: Rcv, q: Rcv) {
    r.nxt <= q.nxt && Edge(r) <= Edge(q) && q.scale == r.scale
  }

  lemma AdvanceKeepsFlow(s: Snd, r: Rcv, n: nat)
    requires Flow(s, r) && 0 < n && CONNECT <= r.nxt + n <= s.nxt && Boundary(s, r.nxt + n)
    ensures n <= r.wnd && Edge(Advance(r, n)) == Edge(r)
    ensures Flow(s, Advance(r, n)) && Forward(r, Advance(r, n))
  {
  }

  lemma TailKeepsFlow(s: Snd, r: Rcv)
    requires Flow(s, r) && Ranges(s, r) && r.rlist != []
    ensures Flow(s, r.(rlist := r.rlist[1..])) && Ranges(s, r.(rlist := r.rlist[1..]))
  {
  }

  lemma {:induction false} RecoverKeepsFlow(s: Snd, r: Rcv)
    requires Flow(s, r) && Ranges(s, r)
    ensures var v := Recover(r);
            !v.halted && Flow(s, v.rcv) && Ranges(s, v.rcv) && Forward(r, v.rcv) && Edge(v.rcv) == Edge(r)
    decreases |r.rlist|
  {
    if r.rlist != [] && r.rlist[0].seqno <= r.nxt {
      var e := r.rlist[0];
      var rest := r.(rlist := r.rlist[1..]);
      TailKeepsFlow(s, r);
      if e.seqno + e.len > r.nxt {
        var n := e.seqno + e.len - r.nxt;
        AdvanceKeepsFlow(s, rest, n);
        RecoverKeepsFlow(s, Advance(rest, n));
      } else {
        RecoverKeepsFlow(s, rest);
      }
    }
  }

  /** The bytes `d` of the stream at `at` are new, and end at a boundary of what was sent. */
  ghost predicate NewBytes(s: Snd, r: Rcv, st: seq<byte>, at: nat, d: seq<byte>) {
    && d != [] && r.nxt <= at && at + |d| <= s.nxt <= |st|
    && d == st[at..at + |d|] && Boundary(s, at + |d|)
  }

  /** Nothing of a packet is ever cut for lack of space: cutting what is known already is all
      that happens, and something is left exactly when something is new. What is left ends
      where the packet does, within the window. Only the connect message lies below `CONNECT`,
      and it comes whole. */
  lemma TrimCutsOnlyOldBytes(s: Snd, r: Rcv, p: Packet, conv: nat, st: seq<byte>)
    requires Flow(s, r) && PacketOk(p, conv, s, st)
    ensures Trim(r, p.seqno, p.data) == TrimFront(r, p.seqno, p.data)
    ensures var (at, d) := Trim(r, p.seqno, p.data);
            && (d == [] <==> p.data == [] || p.seqno + |p.data| <= r.nxt)
            && (d != [] ==>
                  && NewBytes(s, r, st, at, d)
                  && at + |d| == p.seqno + |p.data| <= Edge(r)
                  && (HasCtl(p.flags) ==> r.nxt == 0 && at == 0 && |d| == CONNECT)
                  && (!HasCtl(p.flags) ==> CONNECT <= at))
  {
  }

  lemma SkipKeepsFlow(s: Snd, r: Rcv, n: nat)
    requires Flow(s, r) && Ranges(s, r) && 0 < n && CONNECT <= r.nxt + n <= s.nxt && Boundary(s, r.nxt + n)
    ensures n <= r.buf.Free()
    ensures Flow(s, Skip(r, n)) && Ranges(s, Skip(r, n)) && Forward(r, Skip(r, n))
  {
  }

  lemma PutKeepsFlow(s: Snd, r: Rcv, at: nat, d: seq<byte>)
    requires Flow(s, r) && Ranges(s, r) && r.nxt <= at && at + |d| <= s.nxt
    ensures at + |d| <= r.nxt + r.buf.Free()
    ensures var q := r.(buf := r.buf.Put(d, at - r.nxt));
            Flow(s, q) && Ranges(s, q) && Forward(r, q)
  {
  }

  lemma InsertKeepsRanges(s: Snd, r: Rcv, e: RSegment)
    requires Ranges(s, r) && RangeOk(s, e)
    ensures Ranges(s, r.(rlist := Insert(r.rlist, e)))
  {
    hide RangeOk;
    InsertMembers(r.rlist, e);
  }

  lemma InsertKeepsFlow(s: Snd, r: Rcv, e: RSegment)
    requires Flow(s, r) && Ranges(s, r) && RangeOk(s, e)
    ensures var q := r.(rlist := Insert(r.rlist, e));
            Flow(s, q) && Ranges(s, q) && Forward(r, q)
  {
    InsertKeepsRanges(s, r, e);
  }

  lemma PlaceControlKeepsFlow(s: Snd, r: Rcv, at: nat, n: nat)
    requires Flow(s, r) && Ranges(s, r) && r.nxt <= at
    requires 0 < n && CONNECT <= at + n <= s.nxt && Boundary(s, at + n)
    ensures n <= r.buf.Free()
    ensures var v := PlaceControl(r, at, n);
            v.taken && !v.halted && Flow(s, v.rcv) && Ranges(s, v.rcv) && Forward(r, v.rcv)
            && Edge(v.rcv) == Edge(r) + (if at == r.nxt then n else 0)
  {
    if at == r.nxt {
      SkipKeepsFlow(s, r, n);
      RecoverKeepsFlow(s, Skip(r, n));
    }
  }

  lemma PlaceNextKeepsFlow(s: Snd, r: Rcv, d: seq<byte>)
    requires Flow(s, r) && Ranges(s, r)
    requires d != [] && CONNECT <= r.nxt && r.nxt + |d| <= s.nxt && Boundary(s, r.nxt + |d|)
    ensures |d| <= r.wnd <= r.buf.Free()
    ensures var v := PlaceNext(r, d);
            v.taken && !v.halted && Flow(s, v.rcv) && Ranges(s, v.rcv) && Forward(r, v.rcv) && Edge(v.rcv) == Edge(r)
  {
    var q := r.(buf := r.buf.Put(d, 0));
    PutKeepsFlow(s, r, r.nxt, d);
    AdvanceKeepsFlow(s, q, |d|);
    RecoverKeepsFlow(s, Advance(q, |d|));
  }

  lemma PlaceKeepsFlow(s: Snd, r: Rcv, st: seq<byte>, at: nat, d: seq<byte>, ignore: bool)
    requires Flow(s, r) && Ranges(s, r) && NewBytes(s, r, st, at, d)
    requires if ignore then CONNECT <= at + |d| else CONNECT <= at
    ensures at - r.nxt + |d| <= r.wnd <= r.buf.Free()
    ensures var v := Place(r, at, d, ignore);
            v.taken && !v.halted && Flow(s, v.rcv) && Ranges(s, v.rcv) && Forward(r, v.rcv)
            && Edge(v.rcv) == Edge(r) + (if ignore && at == r.nxt then |d| else 0)
  {
    if ignore {
      PlaceControlKeepsFlow(s, r, at, |d|);
    } else if at == r.nxt {
      PlaceNextKeepsFlow(s, r, d);
    } else {
      PutKeepsFlow(s, r, at, d);
      InsertKeepsFlow(s, r.(buf := r.buf.Put(d, at - r.nxt)), RSegment(at, |d|));
    }
  }

  /** A packet arrives at `r`: nothing is cut for lack of space and nothing dropped, and what
      becomes readable comes off the window without underflow, so that the edge stays where it
      is. A control message that comes in order takes no window and moves the edge. */
  ghost predicate Fits(r: Rcv, p: Packet, ignore: bool)
    requires r.buf.Valid()
  {
    var (at, d) := Trim(r, p.seqno, p.data);
    var v := Arrive(r, p.seqno, p.data, ignore);
    && (at, d) == TrimFront(r, p.seqno, p.data)
    && (d != [] ==> at + |d| <= Edge(r))
    && v.taken && !v.halted
    && r.nxt <= v.rcv.nxt <= Edge(r)
    && Edge(v.rcv) == Edge(r) + (if ignore && d != [] && at == r.nxt then |d| else 0)
  }

  lemma ArriveKeepsFlow(s: Snd, r: Rcv, p: Packet, conv: nat, st: seq<byte>, ignore: bool)
    requires Flow(s, r) && Ranges(s, r) && PacketOk(p, conv, s, st)
    requires HasCtl(p.flags) ==> ignore
    ensures Fits(r, p, ignore)
    ensures var v := Arrive(r, p.seqno, p.data, ignore);
            v.taken && !v.halted && Flow(s, v.rcv) && Ranges(s, v.rcv) && Forward(r, v.rcv)
  {
    var (at, d) := Trim(r, p.seqno, p.data);
    TrimCutsOnlyOldBytes(s, r, p, conv, st);
    if d != [] {
      PlaceKeepsFlow(s, r, st, at, d, ignore);
    }
  }

  // ---- Content ----

  lemma AdvanceKeepsStored(r: Rcv, st: seq<byte>, n: nat)
    requires r.buf.Valid() && n <= r.buf.Free() && Stored(r, st)
    ensures Stored(Advance(r, n), st)
  {
    var q := Advance(r, n);
    forall k | 0 <= k < |q.rlist| ensures Holds(q, st, q.rlist[k]) {
      assert Holds(r, st, r.rlist[k]);
    }
  }

  lemma AdvanceKeepsOrder(r: Rcv, st: seq<byte>, got: seq<byte>, n: nat)
    requires InOrder(r, st, got) && n <= r.buf.Free() && CONNECT <= r.nxt && r.nxt + n <= |st|
    requires forall j :: r.nxt <= j < r.nxt + n ==> r.buf.slots[r.buf.len + j - r.nxt] == st[j]
    ensures InOrder(Advance(r, n), st, got)
  {
    var q := Advance(r, n);
    var fresh' := r.buf.slots[r.buf.len..r.buf.len + n];
    assert q.buf.Data() == r.buf.Data() + fresh';
    assert fresh' == st[r.nxt..r.nxt + n] by {
      forall i | 0 <= i < n ensures fresh'[i] == st[r.nxt + i] {
        var j := r.nxt + i;
        assert r.buf.slots[r.buf.len + j - r.nxt] == st[j];
      }
    }
    assert st[CONNECT..r.nxt] + st[r.nxt..r.nxt + n] == st[CONNECT..r.nxt + n];
    assert got + (r.buf.Data() + fresh') == (got + r.buf.Data()) + fresh';
  }

  lemma {:induction false} RecoverRestoresContent(r: Rcv, st: seq<byte>, got: seq<byte>)
    requires InOrder(r, st, got) && Stored(r, st) && CONNECT <= r.nxt
    ensures Content(Recover(r).rcv, st, got)
    decreases |r.rlist|
  {
    if r.rlist != [] {
      var e := r.rlist[0];
      if e.seqno <= r.nxt {
        var rest := r.(rlist := r.rlist[1..]);
        assert Stored(rest, st) by {
          forall k | 0 <= k < |rest.rlist| ensures Holds(rest, st, rest.rlist[k]) {
            assert Holds(r, st, r.rlist[k + 1]);
          }
        }
        assert Holds(r, st, e);
        if e.seqno + e.len > r.nxt {
          var n := e.seqno + e.len - r.nxt;
          AdvanceKeepsStored(rest, st, n);
          AdvanceKeepsOrder(rest, st, got, n);
          RecoverRestoresContent(Advance(rest, n), st, got);
        } else {
          RecoverRestoresContent(rest, st, got);
        }
      }
    }
  }

  /** Bytes of the stream written ahead at their place disturb no stored stretch. */
  lemma PutKeepsStored(r: Rcv, st: seq<byte>, at: nat, d: seq<byte>)
    requires r.buf.Valid() && r.nxt <= at && at + |d| <= r.nxt + r.buf.Free()
    requires at + |d| <= |st| && d == st[at..at + |d|]
    requires Stored(r, st)
    ensures var q := r.(buf := r.buf.Put(d, at - r.nxt));
            Stored(q, st) && Holds(q, st, RSegment(at, |d|)) && q.buf.Data() == r.buf.Data()
  {
    var q := r.(buf := r.buf.Put(d, at - r.nxt));
    assert d[..|d|] == d;
    forall k | 0 <= k < |q.rlist| ensures Holds(q, st, q.rlist[k]) {
      assert Holds(r, st, r.rlist[k]);
    }
  }

  lemma SkipConnect(r: Rcv, st: seq<byte>)
    requires InOrder(r, st, []) && Stored(r, st) && r.nxt == 0 && CONNECT <= |st|
    requires CONNECT <= r.buf.Free()
    requires forall k :: 0 <= k < |r.rlist| ==> CONNECT <= r.rlist[k].seqno
    ensures InOrder(Skip(r, CONNECT), st, []) && Stored(Skip(r, CONNECT), st)
  {
    var q := Skip(r, CONNECT);
    forall k | 0 <= k < |q.rlist| ensures Holds(q, st, q.rlist[k]) {
      assert Holds(r, st, r.rlist[k]);
    }
  }

  lemma StoreKeepsContent(r: Rcv, st: seq<byte>, got: seq<byte>, at: nat, d: seq<byte>)
    requires Content(r, st, got) && r.nxt < at && at + |d| <= r.nxt + r.buf.Free()
    requires at + |d| <= |st| && d == st[at..at + |d|]
    ensures var q := r.(buf := r.buf.Put(d, at - r.nxt));
            Content(q.(rlist := Insert(q.rlist, RSegment(at, |d|))), st, got)
  {
    var q := r.(buf := r.buf.Put(d, at - r.nxt));
    var e := RSegment(at, |d|);
    var u := q.(rlist := Insert(q.rlist, e));
    PutKeepsStored(r, st, at, d);
    InsertSorts(q.rlist, e);
    InsertMembers(q.rlist, e);
    hide Insert, Ring.Put, Overwrite;
    forall k | 0 <= k < |u.rlist| ensures Holds(u, st, u.rlist[k]) && u.nxt < u.rlist[k].seqno {
      assert u.rlist[k] == e || u.rlist[k] in q.rlist;
      assert Holds(q, st, u.rlist[k]);
    }
  }

  lemma AppendKeepsContent(r: Rcv, st: seq<byte>, got: seq<byte>, d: seq<byte>)
    requires Content(r, st, got) && CONNECT <= r.nxt && |d| <= r.buf.Free()
    requires r.nxt + |d| <= |st| && d == st[r.nxt..r.nxt + |d|]
    ensures Content(Recover(Advance(r.(buf := r.buf.Put(d, 0)), |d|)).rcv, st, got)
  {
    var q := r.(buf := r.buf.Put(d, 0));
    PutKeepsStored(r, st, r.nxt, d);
    assert Holds(q, st, RSegment(r.nxt, |d|));
    AdvanceKeepsStored(q, st, |d|);
    AdvanceKeepsOrder(q, st, got, |d|);
    RecoverRestoresContent(Advance(q, |d|), st, got);
  }

  lemma PlaceKeepsContent(s: Snd, r: Rcv, st: seq<byte>, got: seq<byte>, at: nat, d: seq<byte>, ctl: bool)
    requires Flow(s, r) && Ranges(s, r) && Content(r, st, got) && NewBytes(s, r, st, at, d)
    requires if ctl then r.nxt == 0 && at == 0 && |d| == CONNECT else CONNECT <= at
    ensures at - r.nxt + |d| <= r.buf.Free()
    ensures Content(Place(r, at, d, ctl).rcv, st, got)
  {
    if ctl {
      SkipConnect(r, st);
      RecoverRestoresContent(Skip(r, CONNECT), st, got);
    } else if at == r.nxt {
      AppendKeepsContent(r, st, got, d);
    } else {
      StoreKeepsContent(r, st, got, at, d);
    }
  }

  /** Reassembly: whatever packet of the sender arrives, the readable bytes stay the stream in
      order, stored stretches keep their bytes, and `nxt` is the first missing byte again. */
  lemma ArriveKeepsContent(s: Snd, r: Rcv, p: Packet, conv: nat, st: seq<byte>, got: seq<byte>)
    requires Flow(s, r) && Ranges(s, r) && PacketOk(p, conv, s, st) && Content(r, st, got)
    ensures Content(Arrive(r, p.seqno, p.data, HasCtl(p.flags)).rcv, st, got)
  {
    var (at, d) := Trim(r, p.seqno, p.data);
    TrimCutsOnlyOldBytes(s, r, p, conv, st);
    if d != [] {
      PlaceKeepsContent(s, r, st, got, at, d, HasCtl(p.flags));
    }
  }

  // ---- The application reads ----

  lemma TakenKeepsFlow(s: Snd, r: Rcv, n: nat, mss: nat)
    requires Flow(s, r) && Ranges(s, r) && n <= r.buf.len
    ensures Flow(s, Taken(r, n, mss)) && Ranges(s, Taken(r, n, mss)) && Forward(r, Taken(r, n, mss))
  {
  }

  lemma TakenKeepsContent(r: Rcv, st: seq<byte>, got: seq<byte>, n: nat, mss: nat)
    requires Content(r, st, got) && n <= r.buf.len
    ensures Content(Taken(r, n, mss), st, got + r.buf.Peek(n, 0))
  {
    var q := Taken(r, n, mss);
    assert r.buf.Data() == r.buf.Peek(n, 0) + q.buf.Data();
    assert got + r.buf.Data() == (got + r.buf.Peek(n, 0)) + q.buf.Data();
    forall k | 0 <= k < |q.rlist| ensures Holds(q, st, q.rlist[k]) {
      assert Holds(r, st, r.rlist[k]);
    }
  }
}
