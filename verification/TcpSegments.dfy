/** The list of send segments (`m_slist`): how it is cut, marked, extended and acknowledged,
    and the order it keeps. */
module TcpSegments {
  import opened Numbers
  import opened FifoBuffers

  /** A stretch of the send buffer; `xmit` counts transmissions. */
  datatype SSegment = SSegment(seqno: nat, len: nat, xmit: nat, ctrl: bool)

  // ---- The send list ----

  /** `l` covers the stream from `pos` to `end`. What lies before `nxt` has been transmitted,
      what lies behind has not. A segment's own number never runs ahead of its position, and
      is exact until the segment has been transmitted. */
  ghost predicate Segs(l: seq<SSegment>, pos: nat, nxt: nat, end: nat) {
    if l == [] then pos == nxt == end
    else
      && l[0].seqno <= pos
      && (l[0].len == 0 ==> |l| == 1 && l[0].xmit == 0 && !l[0].ctrl)
      && pos <= nxt <= end
      && (l[0].xmit == 0 ==> nxt == pos && l[0].seqno == pos)
      && (l[0].xmit > 0 ==> pos + l[0].len <= nxt)
      && Segs(l[1..], pos + l[0].len, if l[0].xmit == 0 then pos + l[0].len else nxt, end)
  }

  /** Every segment's number is its position. */
  ghost predicate Exact(l: seq<SSegment>, pos: nat) {
    l != [] ==> l[0].seqno == pos && Exact(l[1..], pos + l[0].len)
  }

  /** `c` is a boundary between two segments, or an end of the list. */
  ghost predicate IsCut(l: seq<SSegment>, pos: nat, c: nat) {
    c == pos || (l != [] && IsCut(l[1..], pos + l[0].len, c))
  }

  // ---- Changes to the send list ----

  /** `queue`: extend the last segment if it is of the same kind and untransmitted. */
  function Enlist(l: seq<SSegment>, pos: nat, len: nat, ctrl: bool): seq<SSegment> {
    var k := |l| - 1;
    if l != [] && l[k].ctrl == ctrl && l[k].xmit == 0
    then l[..k] + [l[k].(len := l[k].len + len)]
    else l + [SSegment(pos, len, 0, ctrl)]
  }

  /** Break segment `i` in two after `n` bytes. */
  function SplitAt(l: seq<SSegment>, i: nat, n: nat): (r: seq<SSegment>)
    requires i < |l| && n <= l[i].len
    ensures |r| == |l| + 1
  {
    var s := l[i];
    l[..i] + [s.(len := n), SSegment(s.seqno + n, s.len - n, s.xmit, s.ctrl)] + l[i + 1..]
  }

  function CutTo(l: seq<SSegment>, i: nat, n: nat): (r: seq<SSegment>)
    requires i < |l|
    ensures i < |r|
  {
    if n < l[i].len then SplitAt(l, i, n) else l
  }

  /** The first untransmitted segment, or the length of the list. */
  function FirstUnsent(l: seq<SSegment>): (k: nat)
    ensures k <= |l|
    ensures forall i :: 0 <= i < k ==> l[i].xmit > 0
    ensures k < |l| ==> l[k].xmit == 0
  {
    if l == [] || l[0].xmit == 0 then 0 else 1 + FirstUnsent(l[1..])
  }

  /** Acknowledged bytes leave the front of the list; also the largest segment that left whole. */
  function AckFree(l: seq<SSegment>, n: nat, largest: nat): (seq<SSegment>, nat) {
    if n == 0 || l == [] then (l, largest)
    else if n < l[0].len then ([l[0].(len := l[0].len - n)] + l[1..], largest)
    else AckFree(l[1..], n - l[0].len, Max(l[0].len, largest))
  }

  /** `transmit` on segment `i`: cut off what was not sent, count the transmission. */
  function MarkSent(l: seq<SSegment>, i: nat, n: nat): (r: seq<SSegment>)
    requires i < |l| && n <= l[i].len
    ensures i < |r|
  {
    var c := CutTo(l, i, n);
    c[i := Count(c[i])]
  }

  lemma {:induction false} UnsentFits(l: seq<SSegment>, pos: nat, nxt: nat, end: nat, i: nat)
    requires Segs(l, pos, nxt, end) && i < |l| && i == FirstUnsent(l)
    ensures l[i].seqno == nxt && nxt + l[i].len <= end
  {
    if i == 0 {
      EndIsLast(l[1..], pos + l[0].len, pos + l[0].len, end);
    } else {
      UnsentFits(l[1..], pos + l[0].len, nxt, end, i - 1);
    }
  }

  lemma EndIsLast(l: seq<SSegment>, pos: nat, nxt: nat, end: nat)
    requires Segs(l, pos, nxt, end)
    ensures pos <= nxt <= end
  {
  }

  lemma SplitTail(l: seq<SSegment>, i: nat, n: nat)
    requires 0 < i < |l| && n <= l[i].len
    ensures SplitAt(l, i, n)[0] == l[0] && SplitAt(l, i, n)[1..] == SplitAt(l[1..], i - 1, n)
  {
    assert l[..i][1..] == l[1..][..i - 1];
    assert l[i + 1..] == l[1..][i..];
  }

  lemma SegsFront(s: SSegment, rest: seq<SSegment>, pos: nat, nxt: nat, end: nat)
    requires s.seqno <= pos && s.len > 0
    requires pos <= nxt <= end
    requires s.xmit == 0 ==> nxt == pos && s.seqno == pos
    requires s.xmit > 0 ==> pos + s.len <= nxt
    requires Segs(rest, pos + s.len, if s.xmit == 0 then pos + s.len else nxt, end)
    ensures Segs([s] + rest, pos, nxt, end)
  {
    assert ([s] + rest)[1..] == rest;
  }

  lemma {:induction false} SplitKeepsExact(l: seq<SSegment>, pos: nat, i: nat, n: nat)
    requires Exact(l, pos) && i < |l| && n <= l[i].len
    ensures Exact(SplitAt(l, i, n), pos)
  {
    var r := SplitAt(l, i, n);
    if i == 0 {
      assert r[1..][1..] == l[1..];
      assert Exact(r[1..], pos + n);
    } else {
      SplitKeepsExact(l[1..], pos + l[0].len, i - 1, n);
      SplitTail(l, i, n);
    }
  }

  lemma {:induction false} MarkKeepsExact(l: seq<SSegment>, pos: nat, i: nat, n: nat)
    requires Exact(l, pos) && i < |l| && n <= l[i].len
    ensures Exact(MarkSent(l, i, n), pos)
  {
    if n < l[i].len {
      SplitKeepsExact(l, pos, i, n);
    }
    SameShapeSameExact(CutTo(l, i, n), MarkSent(l, i, n), pos);
  }

  lemma {:induction false} SameShapeSameExact(l: seq<SSegment>, r: seq<SSegment>, pos: nat)
    requires |l| == |r| && forall k :: 0 <= k < |l| ==> l[k].len == r[k].len && l[k].seqno == r[k].seqno
    requires Exact(l, pos)
    ensures Exact(r, pos)
  {
    if l != [] {
      SameShapeSameExact(l[1..], r[1..], pos + l[0].len);
    }
  }

  /** The front segment replaced by its first `n` bytes, with `xmit` transmissions, and the rest. */
  lemma CutFrontKeeps(l: seq<SSegment>, pos: nat, nxt: nat, end: nat, n: nat)
    requires Segs(l, pos, nxt, end) && l != [] && 0 < n < l[0].len
    ensures Segs(SplitAt(l, 0, n), pos, nxt, end)
  {
    var s := l[0];
    var rest := SSegment(s.seqno + n, s.len - n, s.xmit, s.ctrl);
    var to := if s.xmit == 0 then pos + n else nxt;
    EndIsLast(l[1..], pos + s.len, if s.xmit == 0 then pos + s.len else nxt, end);
    SegsFront(rest, l[1..], pos + n, to, end);
    SegsFront(s.(len := n), [rest] + l[1..], pos, nxt, end);
    assert SplitAt(l, 0, n) == [s.(len := n)] + ([rest] + l[1..]);
  }

  /** Cutting a segment keeps the order. */
  lemma {:induction false} SplitKeeps(l: seq<SSegment>, pos: nat, nxt: nat, end: nat, i: nat, n: nat)
    requires Segs(l, pos, nxt, end) && i < |l| && 0 < n < l[i].len
    requires i == 0 || i == FirstUnsent(l)
    ensures Segs(SplitAt(l, i, n), pos, nxt, end)
  {
    if i == 0 {
      CutFrontKeeps(l, pos, nxt, end, n);
    } else {
      SplitKeeps(l[1..], pos + l[0].len, nxt, end, i - 1, n);
      SplitTail(l, i, n);
    }
  }

  lemma {:induction false} SplitKeepsFirstUnsent(l: seq<SSegment>, i: nat, n: nat)
    requires i < |l| && n <= l[i].len && i == FirstUnsent(l)
    ensures FirstUnsent(SplitAt(l, i, n)) == i
  {
    if i > 0 {
      SplitKeepsFirstUnsent(l[1..], i - 1, n);
      SplitTail(l, i, n);
    }
  }

  lemma {:induction false} SplitKeepsCut(l: seq<SSegment>, pos: nat, i: nat, n: nat, c: nat)
    requires i < |l| && n <= l[i].len && IsCut(l, pos, c)
    ensures IsCut(SplitAt(l, i, n), pos, c)
  {
    var r := SplitAt(l, i, n);
    if c != pos {
      if i == 0 {
        assert r[1..][1..] == l[1..];
        assert IsCut(r[1..], pos + n, c);
      } else {
        SplitKeepsCut(l[1..], pos + l[0].len, i - 1, n, c);
        SplitTail(l, i, n);
      }
    }
  }

  function Count(s: SSegment): SSegment { s.(xmit := s.xmit + 1) }

  lemma UpdateBehindFront(l: seq<SSegment>, i: nat, s: SSegment)
    requires i < |l|
    ensures l[i := s] == if i == 0 then [s] + l[1..] else [l[0]] + l[1..][i - 1 := s]
  {
  }

  /** Counting a transmission of the front or of the first untransmitted segment. */
  lemma {:induction false} CountKeeps(l: seq<SSegment>, pos: nat, nxt: nat, end: nat, i: nat)
    requires Segs(l, pos, nxt, end) && i < |l| && l[i].len > 0
    requires i == 0 || i == FirstUnsent(l)
    ensures Segs(l[i := Count(l[i])], pos, if l[i].xmit == 0 then nxt + l[i].len else nxt, end)
  {
    UpdateBehindFront(l, i, Count(l[i]));
    if i == 0 {
      EndIsLast(l[1..], pos + l[0].len, if l[0].xmit == 0 then pos + l[0].len else nxt, end);
      SegsFront(Count(l[0]), l[1..], pos, if l[0].xmit == 0 then nxt + l[0].len else nxt, end);
    } else {
      CountKeeps(l[1..], pos + l[0].len, nxt, end, i - 1);
      var r := l[1..][i - 1 := Count(l[i])];
      EndIsLast(r, pos + l[0].len, nxt + l[i].len, end);
      SegsFront(l[0], r, pos, nxt + l[i].len, end);
    }
  }

  /** Transmitting `n` bytes of the first untransmitted segment moves `nxt` on by `n`,
      retransmitting from the front one leaves it. */
  lemma MarkKeeps(l: seq<SSegment>, pos: nat, nxt: nat, end: nat, i: nat, n: nat)
    requires Segs(l, pos, nxt, end)
    requires i < |l| && (i == 0 || i == FirstUnsent(l)) && 0 < n <= l[i].len
    ensures Segs(MarkSent(l, i, n), pos, if l[i].xmit == 0 then nxt + n else nxt, end)
  {
    if n < l[i].len {
      SplitKeeps(l, pos, nxt, end, i, n);
      if i == FirstUnsent(l) {
        SplitKeepsFirstUnsent(l, i, n);
      }
    }
    CountKeeps(CutTo(l, i, n), pos, nxt, end, i);
  }

  lemma {:induction false} MarkKeepsCut(l: seq<SSegment>, pos: nat, i: nat, n: nat, c: nat)
    requires i < |l| && n <= l[i].len && IsCut(l, pos, c)
    ensures IsCut(MarkSent(l, i, n), pos, c)
  {
    if n < l[i].len {
      SplitKeepsCut(l, pos, i, n, c);
    }
    SameLengthsSameCuts(CutTo(l, i, n), MarkSent(l, i, n), pos, c);
  }

  lemma {:induction false} SameLengthsSameCuts(l: seq<SSegment>, r: seq<SSegment>, pos: nat, c: nat)
    requires |l| == |r| && forall k :: 0 <= k < |l| ==> l[k].len == r[k].len
    requires IsCut(l, pos, c)
    ensures IsCut(r, pos, c)
  {
    if c != pos {
      SameLengthsSameCuts(l[1..], r[1..], pos + l[0].len, c);
    }
  }

  /** The end of what is transmitted is a boundary. */
  lemma {:induction false} MarkCuts(l: seq<SSegment>, pos: nat, i: nat, n: nat)
    requires Exact(l, pos) && i < |l| && n <= l[i].len
    ensures IsCut(MarkSent(l, i, n), pos, l[i].seqno + n)
  {
    var r := MarkSent(l, i, n);
    if i == 0 {
      assert IsCut(r[1..], pos + n, pos + n);
    } else {
      MarkCuts(l[1..], pos + l[0].len, i - 1, n);
      assert r[1..] == MarkSent(l[1..], i - 1, n);
    }
  }

  /** Queueing moves the end; boundaries up to `nxt` stay. */
  lemma {:induction false} EnlistKeeps(l: seq<SSegment>, pos: nat, nxt: nat, end: nat, len: nat, ctrl: bool)
    requires Segs(l, pos, nxt, end)
    requires ctrl ==> l == [] && len > 0
    ensures Segs(Enlist(l, end, len, ctrl), pos, nxt, end + len)
    ensures Exact(l, pos) ==> Exact(Enlist(l, end, len, ctrl), pos)
  {
    var r := Enlist(l, end, len, ctrl);
    if l == [] {
      assert r[1..] == [];
    } else if |l| == 1 {
      assert l[1..] == [];
      if l[0].ctrl == ctrl && l[0].xmit == 0 {
        assert r[1..] == [];
      } else {
        assert r[1..] == [SSegment(end, len, 0, ctrl)];
        assert r[1..][1..] == [];
      }
    } else {
      EnlistKeeps(l[1..], pos + l[0].len, if l[0].xmit == 0 then pos + l[0].len else nxt, end, len, ctrl);
      assert r[1..] == Enlist(l[1..], end, len, ctrl);
    }
  }

  lemma {:induction false} EnlistKeepsCut(l: seq<SSegment>, pos: nat, nxt: nat, end: nat, len: nat, ctrl: bool, c: nat)
    requires Segs(l, pos, nxt, end) && (ctrl ==> l == [])
    requires IsCut(l, pos, c) && c <= nxt
    ensures IsCut(Enlist(l, end, len, ctrl), pos, c)
  {
    var r := Enlist(l, end, len, ctrl);
    if c != pos {
      CutsAreBehind(l[1..], pos + l[0].len, c);
      if l[0].xmit > 0 {
        EnlistKeepsCut(l[1..], pos + l[0].len, nxt, end, len, ctrl, c);
        assert r[1..] == Enlist(l[1..], end, len, ctrl);
      }
    }
  }

  /** Acknowledged bytes leave from the front of the transmitted part. */
  lemma {:induction false} AckFreeKeeps(l: seq<SSegment>, pos: nat, nxt: nat, end: nat, n: nat, largest: nat)
    requires Segs(l, pos, nxt, end) && n <= nxt - pos
    ensures Segs(AckFree(l, n, largest).0, pos + n, nxt, end)
    ensures Exact(l, pos) && IsCut(l, pos, pos + n) ==> Exact(AckFree(l, n, largest).0, pos + n)
  {
    if n != 0 {
      if n < l[0].len {
        var r := AckFree(l, n, largest).0;
        assert r[1..] == l[1..];
        if IsCut(l, pos, pos + n) {
          CutsAreBehind(l[1..], pos + l[0].len, pos + n);
        }
      } else {
        AckFreeKeeps(l[1..], pos + l[0].len, nxt, end, n - l[0].len, Max(l[0].len, largest));
      }
    }
  }

  lemma {:induction false} CutsAreBehind(l: seq<SSegment>, pos: nat, c: nat)
    requires IsCut(l, pos, c)
    ensures pos <= c
  {
    if c != pos {
      CutsAreBehind(l[1..], pos + l[0].len, c);
    }
  }

  lemma {:induction false} AckFreeKeepsCut(l: seq<SSegment>, pos: nat, nxt: nat, end: nat, n: nat, largest: nat, c: nat)
    requires Segs(l, pos, nxt, end) && n <= nxt - pos
    requires IsCut(l, pos, c) && pos + n <= c
    ensures IsCut(AckFree(l, n, largest).0, pos + n, c)
  {
    if n != 0 && c != pos + n {
      if n < l[0].len {
        assert AckFree(l, n, largest).0[1..] == l[1..];
      } else {
        AckFreeKeepsCut(l[1..], pos + l[0].len, nxt, end, n - l[0].len, Max(l[0].len, largest), c);
      }
    }
  }

  /** With bytes in flight the front segment is one of them; without, the first segment is
      untransmitted. */
  lemma {:induction false} FrontInFlight(l: seq<SSegment>, pos: nat, nxt: nat, end: nat)
    requires Segs(l, pos, nxt, end)
    ensures pos < nxt ==> l != [] && l[0].xmit > 0 && l[0].len > 0
  {
  }

  /** With unsent bytes the scan for an untransmitted segment finds one, and it is not empty. */
  lemma {:induction false} UnsentExists(l: seq<SSegment>, pos: nat, nxt: nat, end: nat)
    requires Segs(l, pos, nxt, end) && nxt < end
    ensures FirstUnsent(l) < |l| && l[FirstUnsent(l)].len > 0
  {
    assert |l| == 1 ==> l[1..] == [];
    if l[0].xmit > 0 {
      UnsentExists(l[1..], pos + l[0].len, nxt, end);
    }
  }

  // ---- What the order means ----

  function Total(l: seq<SSegment>): nat { if l == [] then 0 else l[0].len + Total(l[1..]) }

  function SentTotal(l: seq<SSegment>): nat {
    if l == [] then 0 else (if l[0].xmit > 0 then l[0].len else 0) + SentTotal(l[1..])
  }

  /** Lengths sum up to what is buffered; the transmitted segments come first and sum up to what
      is in flight; no segment's number runs ahead of its position. */
  ghost predicate Accounted(l: seq<SSegment>, pos: nat, nxt: nat, end: nat) {
    && pos + Total(l) == end && pos + SentTotal(l) == nxt
    && (forall i, j :: 0 <= i < j < |l| && l[j].xmit > 0 ==> l[i].xmit > 0)
    && (forall i :: 0 <= i < |l| ==> l[i].seqno <= pos + Total(l[..i]))
  }

  lemma {:induction false} NothingSent(l: seq<SSegment>, pos: nat, end: nat)
    requires Segs(l, pos, pos, end)
    ensures SentTotal(l) == 0 && forall i :: 0 <= i < |l| ==> l[i].xmit == 0
  {
    if l != [] {
      NothingSent(l[1..], pos + l[0].len, end);
    }
  }

  lemma TotalOfFront(l: seq<SSegment>, i: nat)
    requires 0 < i <= |l|
    ensures Total(l[..i]) == l[0].len + Total(l[1..][..i - 1])
  {
    assert l[..i][1..] == l[1..][..i - 1];
  }

  lemma {:induction false} SegsAccount(l: seq<SSegment>, pos: nat, nxt: nat, end: nat)
    requires Segs(l, pos, nxt, end)
    ensures Accounted(l, pos, nxt, end)
  {
    if l != [] {
      var to := if l[0].xmit == 0 then pos + l[0].len else nxt;
      SegsAccount(l[1..], pos + l[0].len, to, end);
      if l[0].xmit == 0 {
        NothingSent(l[1..], to, end);
        assert forall j :: 0 < j < |l| ==> l[j] == l[1..][j - 1];
      }
      forall i | 0 <= i < |l| ensures l[i].seqno <= pos + Total(l[..i]) {
        if i > 0 {
          TotalOfFront(l, i);
          assert l[i] == l[1..][i - 1];
        }
      }
      forall i, j | 0 <= i < j < |l| && l[j].xmit > 0 ensures l[i].xmit > 0 {
        assert i > 0 ==> l[i] == l[1..][i - 1] && l[j] == l[1..][j - 1];
      }
    }
  }
}
