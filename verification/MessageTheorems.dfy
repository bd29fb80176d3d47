/** What holds over every interleaving of updates, errors, time-outs and endings by the user. */
module MessageTheorems {
  import opened Numbers
  import opened FifoBuffers
  import opened TcpTypes
  import opened MessageFraming
  import opened MessageSending

  // ---- One connection ----

  /** The callback has run at most once; a connection has ended exactly when it has run or the
      user has ended it; an answer that is not null was complete. */
  predicate ConnOk(c: Conn) {
    && |c.responses| <= 1
    && (c.end <==> c.responses != [] || c.userEnded)
    && (c.calledReceive ==> c.responses == [ReceivedData(c.taken)])
    && (c.responses != [] && c.responses[0] != Null ==> c.calledReceive)
    && (c.calledReceive ==> WriteComplete(c) && ReadComplete(c.taken) && c.taken <= c.received)
  }

  lemma ReactsOk(c: Conn, alive: bool)
    requires ConnOk(c)
    ensures ConnOk(Reacts(c, alive).0)
    ensures Reacts(c, alive).0.number == c.number
    ensures c.end ==> Reacts(c, alive).0 == c
    ensures Reacts(c, alive).1 ==> Reacts(c, alive).0.end
    ensures alive && !Reacts(c, alive).1 ==> Reacts(c, alive).0 == c
    ensures alive && c.error ==> Reacts(c, alive).0.end
  {
  }

  // ---- The object ----

  /** Conversation numbers are given out in a row. */
  predicate Numbered(d: Desk) {
    && d.lastNo < U32
    && forall i {:trigger d.conns[i]} :: 0 <= i < |d.conns| ==>
         d.conns[i].number == Wrap32(d.lastNo - (|d.conns| - 1 - i))
  }

  predicate Known(d: Desk) {
    forall k :: k in d.mapSend ==> d.mapSend[k] < |d.conns| && d.conns[d.mapSend[k]].number == k
  }

  /** A number in the queue belongs to a connection that has ended. */
  predicate QueuedHasEnded(d: Desk, k: nat) {
    exists i {:trigger d.conns[i]} :: 0 <= i < |d.conns| && d.conns[i].number == k && d.conns[i].end
  }

  /** While the object lives, a connection that has not ended is in the map. */
  predicate Listed(d: Desk, i: nat)
    requires i < |d.conns|
  {
    var c := d.conns[i];
    d.alive && !c.end ==> c.number in d.mapSend && d.mapSend[c.number] == i
  }

  predicate AllOk(d: Desk) {
    forall i :: 0 <= i < |d.conns| ==> ConnOk(d.conns[i])
  }

  predicate Kept(d: Desk) {
    && Known(d)
    && (forall k :: k in d.queueEnd ==> QueuedHasEnded(d, k))
    && (forall i :: 0 <= i < |d.conns| ==> Listed(d, i))
  }

  // ---- Steps keep the connections in order ----

  /** A step of connection `i`: it may end, the others stay. */
  predicate OneMoves(d: Desk, u: Desk, i: nat) {
    && i < |d.conns| == |u.conns| && u.lastNo == d.lastNo && u.alive == d.alive && u.mapSend == d.mapSend
    && (forall j :: 0 <= j < |d.conns| && j != i ==> u.conns[j] == d.conns[j])
    && u.conns[i].number == d.conns[i].number
    && (d.conns[i].end ==> u.conns[i].end)
    && (forall k :: k in u.queueEnd ==> k in d.queueEnd || (k == u.conns[i].number && u.conns[i].end))
    && (AllOk(d) ==> AllOk(u))
  }

  lemma UpdatedMoves(d: Desk, i: nat)
    requires i < |d.conns| && AllOk(d)
    ensures OneMoves(d, Updated(d, i), i)
  {
    ReactsOk(d.conns[i], d.alive);
    hide Reacts, ConnOk;
  }

  lemma MovesInTurn(d: Desk, u: Desk, v: Desk, i: nat)
    requires OneMoves(d, u, i) && OneMoves(u, v, i)
    ensures OneMoves(d, v, i)
  {
    hide ConnOk;
  }

  /** A change of a connection that keeps its number, its end and its history in order. */
  lemma ConnMoves(d: Desk, i: nat, c: Conn)
    requires i < |d.conns| && AllOk(d) && ConnOk(c)
    requires c.number == d.conns[i].number && c.end == d.conns[i].end
    ensures OneMoves(d, WithConn(d, i, c), i)
  {
    hide ConnOk;
  }

  lemma FailedMoves(d: Desk, i: nat)
    requires i < |d.conns| && AllOk(d)
    ensures OneMoves(d, Failed(d, i), i)
    ensures d.alive ==> Failed(d, i).conns[i].end
  {
    var d1 := WithConn(d, i, d.conns[i].(error := true));
    ConnMoves(d, i, d.conns[i].(error := true));
    ReactsOk(d1.conns[i], d1.alive);
    UpdatedMoves(d1, i);
    MovesInTurn(d, d1, Failed(d, i), i);
  }

  lemma WroteMoves(d: Desk, i: nat, n: nat)
    requires i < |d.conns| && AllOk(d)
    ensures OneMoves(d, Wrote(d, i, n), i)
  {
    var c := d.conns[i];
    if !WriteComplete(c) {
      var c1 := c.(offsetWrite := c.offsetWrite + Min(n, |c.chunk| - c.offsetWrite));
      ConnMoves(d, i, c1);
      if WriteComplete(c1) {
        UpdatedMoves(WithConn(d, i, c1), i);
        MovesInTurn(d, WithConn(d, i, c1), Wrote(d, i, n), i);
      }
    } else {
      hide ConnOk;
    }
  }

  lemma ReadMoves(d: Desk, i: nat, piece: seq<byte>)
    requires i < |d.conns| && AllOk(d)
    ensures OneMoves(d, Read(d, i, piece), i)
  {
    var c := d.conns[i].(received := d.conns[i].received + piece);
    ConnMoves(d, i, c);
    if ReadComplete(c.received) {
      UpdatedMoves(WithConn(d, i, c), i);
      MovesInTurn(d, WithConn(d, i, c), Read(d, i, piece), i);
    }
  }

  lemma UserEndMoves(d: Desk, i: nat)
    requires i < |d.conns| && AllOk(d)
    ensures OneMoves(d, UserEnds(d, i), i)
  {
  }

  /** Numbers given out in a row differ, as long as there are not more than 2^32 of them. */
  lemma NumbersDiffer(d: Desk, i: nat, j: nat)
    requires Numbered(d) && |d.conns| <= U32 && i < |d.conns| && j < |d.conns|
    ensures d.conns[i].number == d.conns[j].number ==> i == j
  {
  }

  lemma MoveKeeps(d: Desk, u: Desk, i: nat)
    requires OneMoves(d, u, i) && Numbered(d) && Kept(d)
    ensures Numbered(u) && Kept(u)
  {
    forall k | k in u.queueEnd ensures QueuedHasEnded(u, k) {
      if k in d.queueEnd {
        assert QueuedHasEnded(d, k);
        var j :| 0 <= j < |d.conns| && d.conns[j].number == k && d.conns[j].end;
        assert u.conns[j].number == k && u.conns[j].end;
      } else {
        assert u.conns[i].number == k;
      }
    }
    forall j | 0 <= j < |u.conns| ensures Listed(u, j) {
      assert Listed(d, j);
    }
  }

  // ---- The clock and the map ----

  predicate Sane(d: Desk) { AllOk(d) && Numbered(d) && Kept(d) && d.alive }

  /** What the clock leaves: connections only end, numbers are only queued. */
  predicate ClockMoves(d: Desk, u: Desk) {
    && u.mapSend == d.mapSend && |u.conns| == |d.conns|
    && (forall j {:trigger u.conns[j]} :: 0 <= j < |d.conns| ==>
          && (d.conns[j].end ==> u.conns[j].end)
          && u.conns[j].number == d.conns[j].number
          && u.conns[j].timeStart == d.conns[j].timeStart && u.conns[j].timeout == d.conns[j].timeout)
    && (forall k :: k in d.queueEnd ==> k in u.queueEnd)
  }

  lemma ClockMovesInTurn(d: Desk, u: Desk, v: Desk)
    requires ClockMoves(d, u) && ClockMoves(u, v)
    ensures ClockMoves(d, v)
  {
  }

  /** The number of a connection that has ended is queued. */
  lemma QueueKeeps(d: Desk, i: nat)
    requires Sane(d) && i < |d.conns| && d.conns[i].end
    ensures Sane(d.(queueEnd := d.queueEnd + [d.conns[i].number]))
    ensures ClockMoves(d, d.(queueEnd := d.queueEnd + [d.conns[i].number]))
  {
    var u := d.(queueEnd := d.queueEnd + [d.conns[i].number]);
    forall k | k in u.queueEnd ensures QueuedHasEnded(u, k) {
      if k in d.queueEnd {
        assert QueuedHasEnded(d, k);
      } else {
        assert u.conns[i].number == k;
      }
    }
    forall j | 0 <= j < |u.conns| ensures Listed(u, j) {
      assert Listed(d, j);
    }
  }

  lemma FailedKeeps(d: Desk, i: nat)
    requires Sane(d) && i < |d.conns|
    ensures Sane(Failed(d, i)) && ClockMoves(d, Failed(d, i)) && Failed(d, i).conns[i].end
  {
    FailedMoves(d, i);
    MoveKeeps(d, Failed(d, i), i);
    hide ConnOk, Kept, Numbered;
  }

  lemma ClockOneKeeps(d: Desk, k: nat, now: nat, closing: set<nat>)
    requires Sane(d) && k in d.mapSend
    ensures var u := ClockOne(d, k, now, closing);
            && Sane(u) && ClockMoves(d, u)
            && (TimedOut(d.conns[d.mapSend[k]], now) ==> k in u.queueEnd)
  {
    var i := d.mapSend[k];
    FailedKeeps(d, i);
    hide Failed, TimedOut, AllOk, Numbered;
    if TimedOut(d.conns[i], now) {
      QueueKeeps(Failed(d, i), i);
      ClockMovesInTurn(d, Failed(d, i), ClockOne(d, k, now, closing));
    }
  }

  /** Of `keys`, the timed-out ones are queued in `u`. */
  predicate Handled(d: Desk, u: Desk, keys: seq<nat>, now: nat)
    requires MapsToConns(d)
  {
    forall k :: k in keys && k in d.mapSend && TimedOut(d.conns[d.mapSend[k]], now) ==> k in u.queueEnd
  }

  lemma HandledMore(d: Desk, m: Desk, u: Desk, keys: seq<nat>, now: nat)
    requires MapsToConns(d) && ClockMoves(d, m) && ClockMoves(m, u) && keys != []
    requires Handled(d, m, keys[..|keys| - 1], now)
    requires var k := keys[|keys| - 1];
             k in d.mapSend && (TimedOut(m.conns[d.mapSend[k]], now) ==> k in u.queueEnd)
    ensures Handled(d, u, keys, now)
  {
    var before := keys[..|keys| - 1];
    forall k | k in keys && k in d.mapSend && TimedOut(d.conns[d.mapSend[k]], now) ensures k in u.queueEnd {
      assert k in before || k == keys[|keys| - 1];
      assert m.conns[d.mapSend[k]].timeStart == d.conns[d.mapSend[k]].timeStart;
    }
  }

  /** After the clock has gone over `keys`, each of them that is timed out is queued. */
  lemma {:induction false} ClockAllKeeps(d: Desk, keys: seq<nat>, now: nat, closing: set<nat>)
    requires Sane(d) && forall k :: k in keys ==> k in d.mapSend
    ensures var u := ClockAll(d, keys, now, closing);
            Sane(u) && ClockMoves(d, u) && Handled(d, u, keys, now)
  {
    assert MapsToConns(d);
    hide Sane, ClockOne, Handled, MapsToConns;
    if keys != [] {
      var before := keys[..|keys| - 1];
      ClockAllKeeps(d, before, now, closing);
      var m := ClockAll(d, before, now, closing);
      var u := ClockAll(d, keys, now, closing);
      ClockOneKeeps(m, keys[|keys| - 1], now, closing);
      HandledMore(d, m, u, keys, now);
      ClockMovesInTurn(d, m, u);
    } else {
      NothingHandled(d, now);
    }
  }

  lemma NothingHandled(d: Desk, now: nat)
    requires MapsToConns(d)
    ensures ClockMoves(d, d) && Handled(d, d, [], now)
  {
  }

  lemma SweptKeeps(d: Desk)
    requires Sane(d) && |d.conns| <= U32
    ensures Sane(Swept(d))
    ensures forall i :: 0 <= i < |d.conns| && d.conns[i].number in d.queueEnd ==> d.conns[i].number !in Swept(d).mapSend
  {
    var u := Swept(d);
    forall i | 0 <= i < |u.conns| ensures Listed(u, i) {
      assert Listed(d, i);
      var k := d.conns[i].number;
      if k in d.queueEnd {
        assert QueuedHasEnded(d, k);
        var j :| 0 <= j < |d.conns| && d.conns[j].number == k && d.conns[j].end;
        NumbersDiffer(d, i, j);
      }
    }
  }

  lemma SendIsNumbered(d: Desk, chunk: seq<byte>, timeout: nat, now: nat)
    requires Numbered(d)
    ensures Numbered(SendChunk(d, chunk, timeout, now))
  {
    var u, n := SendChunk(d, chunk, timeout, now), |d.conns|;
    forall i {:trigger u.conns[i]} | 0 <= i < |u.conns|
      ensures u.conns[i].number == Wrap32(u.lastNo - (|u.conns| - 1 - i))
    {
      if i < n {
        assert d.conns[i].number == Wrap32(d.lastNo - (n - 1 - i));
        OneFurther(d.lastNo, n - 1 - i);
      } else {
        NumberOfItself(u.lastNo);
      }
      hide Wrap32;
    }
  }

  lemma OneFurther(a: nat, b: nat)
    ensures Wrap32(Wrap32(a + 1) - (b + 1)) == Wrap32(a - b)
  {
    var k := (a + 1) / U32;
    assert Wrap32(a + 1) == a + 1 - k * U32;
    SameModulo(a - b, k);
  }

  lemma SameModulo(x: int, k: int)
    ensures Wrap32(x - k * U32) == Wrap32(x)
  {
    var q, r := x / U32, x % U32;
    assert x - k * U32 == (q - k) * U32 + r;
  }

  lemma NumberOfItself(n: nat)
    requires n < U32
    ensures Wrap32(n - 0) == n
  {
  }

  lemma SendOk(d: Desk, chunk: seq<byte>, timeout: nat, now: nat)
    requires AllOk(d)
    ensures AllOk(SendChunk(d, chunk, timeout, now))
  {
  }

  lemma SendKeeps(d: Desk, chunk: seq<byte>, timeout: nat, now: nat)
    requires Sane(d) && |d.conns| < U32
    ensures Sane(SendChunk(d, chunk, timeout, now))
  {
    var u := SendChunk(d, chunk, timeout, now);
    var n := |d.conns|;
    SendIsNumbered(d, chunk, timeout, now);
    SendOk(d, chunk, timeout, now);
    hide ConnOk;
    forall k | k in u.queueEnd ensures QueuedHasEnded(u, k) {
      assert QueuedHasEnded(d, k);
      var j :| 0 <= j < |d.conns| && d.conns[j].number == k && d.conns[j].end;
      assert u.conns[j] == d.conns[j];
    }
    forall i | 0 <= i < |u.conns| ensures Listed(u, i) {
      if i < n {
        assert Listed(d, i);
        NumbersDiffer(u, i, n);
      }
    }
  }

  // ---- Every run ----

  lemma {:induction false} ClockAllOk(d: Desk, keys: seq<nat>, now: nat, closing: set<nat>)
    requires AllOk(d) && MapsToConns(d) && forall k :: k in keys ==> k in d.mapSend
    ensures AllOk(ClockAll(d, keys, now, closing))
  {
    if keys != [] {
      var before := keys[..|keys| - 1];
      ClockAllOk(d, before, now, closing);
      var m := ClockAll(d, before, now, closing);
      FailedMoves(m, m.mapSend[keys[|keys| - 1]]);
      hide ConnOk, Failed;
    }
  }

  lemma KeysAreMapped(d: Desk, keys: seq<nat>)
    requires (set k | k in keys) == d.mapSend.Keys
    ensures forall k :: k in keys <==> k in d.mapSend
  {
    forall k ensures k in keys <==> k in d.mapSend {
      assert k in keys <==> k in (set j | j in keys);
    }
  }

  lemma NextOk(d: Desk, op: Op)
    requires AllOk(d) && MapsToConns(d)
    ensures AllOk(Next(d, op))
  {
    hide ConnOk, Failed, Wrote, Read, UserEnds, SendChunk, ClockAll;
    if Possible(d, op) {
      match op
      case DoSend(chunk, timeout, now) => SendOk(d, chunk, timeout, now);
      case DoWrote(i, n) => WroteMoves(d, i, n);
      case DoRead(i, piece) => ReadMoves(d, i, piece);
      case DoFail(i) => FailedMoves(d, i);
      case DoEnd(i) => UserEndMoves(d, i);
      case DoTick(keys, now, closing) =>
        KeysAreMapped(d, keys);
        ClockAllOk(d, keys, now, closing);
      case DoDestroy =>
    }
  }

  lemma {:induction false} RunOk(d: Desk, ops: seq<Op>)
    requires AllOk(d) && MapsToConns(d)
    ensures AllOk(Run(d, ops))
  {
    hide AllOk, Next;
    if ops != [] {
      RunOk(d, ops[..|ops| - 1]);
      NextOk(Run(d, ops[..|ops| - 1]), ops[|ops| - 1]);
    }
  }

  /** Over every interleaving the response callback of a connection runs at most once; the
      connection ends exactly when it has run or the user has ended it; and an answer that is not
      null is what the peer's complete message yields, after the whole request has been written. */
  lemma ResponseRunsAtMostOnce(lastNo: nat, timeout: nat, ops: seq<Op>, i: nat)
    requires lastNo < U32
    ensures var d := Run(NewDesk(lastNo, timeout), ops);
            i < |d.conns| ==>
              var c := d.conns[i];
              && |c.responses| <= 1
              && (c.end <==> c.responses != [] || c.userEnded)
              && (c.responses != [] && c.responses[0] != Null ==>
                    && c.responses[0] == ReceivedData(c.taken)
                    && ReadComplete(c.taken) && c.taken <= c.received && WriteComplete(c))
  {
    RunOk(NewDesk(lastNo, timeout), ops);
    hide Run;
    var d := Run(NewDesk(lastNo, timeout), ops);
    assert i < |d.conns| ==> ConnOk(d.conns[i]);
  }

  lemma MoveKeepsSane(d: Desk, u: Desk, i: nat)
    requires OneMoves(d, u, i) && Sane(d)
    ensures Sane(u)
  {
    hide ConnOk, AllOk;
    MoveKeeps(d, u, i);
  }

  lemma TickKeeps(d: Desk, keys: seq<nat>, now: nat, closing: set<nat>)
    requires Sane(d) && |d.conns| <= U32 && forall k :: k in keys <==> k in d.mapSend
    ensures Sane(Tick(d, keys, now, closing))
  {
    ClockAllKeeps(d, keys, now, closing);
    SweptKeeps(ClockAll(d, keys, now, closing));
  }

  lemma NextKeeps(d: Desk, op: Op)
    requires Sane(d) && |Next(d, op).conns| <= U32
    ensures Next(d, op).alive ==> Sane(Next(d, op))
  {
    assert AllOk(d) && MapsToConns(d);
    hide Sane, AllOk, Failed, Wrote, Read, UserEnds, Tick, Numbered, Kept, OneMoves;
    if Possible(d, op) {
      match op
      case DoSend(chunk, timeout, now) => SendKeeps(d, chunk, timeout, now);
      case DoWrote(i, n) => WroteMoves(d, i, n); MoveKeepsSane(d, Wrote(d, i, n), i);
      case DoRead(i, piece) => ReadMoves(d, i, piece); MoveKeepsSane(d, Read(d, i, piece), i);
      case DoFail(i) => FailedMoves(d, i); MoveKeepsSane(d, Failed(d, i), i);
      case DoEnd(i) => UserEndMoves(d, i); MoveKeepsSane(d, UserEnds(d, i), i);
      case DoTick(keys, now, closing) =>
        KeysAreMapped(d, keys);
        TickSize(d, keys, now, closing);
        TickKeeps(d, keys, now, closing);
      case DoDestroy =>
    }
  }

  lemma TickSize(d: Desk, keys: seq<nat>, now: nat, closing: set<nat>)
    requires MapsToConns(d) && forall k :: k in keys ==> k in d.mapSend
    ensures |Tick(d, keys, now, closing).conns| == |d.conns|
  {
  }

  lemma NextGrows(d: Desk, op: Op)
    requires MapsToConns(d)
    ensures |d.conns| <= |Next(d, op).conns|
    ensures Next(d, op).alive ==> d.alive
  {
    if op.DoTick? && Possible(d, op) {
      KeysAreMapped(d, op.keys);
      TickSize(d, op.keys, op.now, op.closing);
      ClockAllAlive(d, op.keys, op.now, op.closing);
    }
  }

  lemma {:induction false} ClockAllAlive(d: Desk, keys: seq<nat>, now: nat, closing: set<nat>)
    requires MapsToConns(d) && forall k :: k in keys ==> k in d.mapSend
    ensures ClockAll(d, keys, now, closing).alive == d.alive
  {
    if keys != [] {
      ClockAllAlive(d, keys[..|keys| - 1], now, closing);
    }
  }

  lemma {:induction false} RunKeepsSane(d: Desk, ops: seq<Op>)
    requires Sane(d) && |Run(d, ops).conns| <= U32
    ensures Run(d, ops).alive ==> Sane(Run(d, ops))
  {
    assert MapsToConns(d);
    hide Sane, Next;
    if ops != [] {
      var m, op := Run(d, ops[..|ops| - 1]), ops[|ops| - 1];
      NextGrows(m, op);
      RunKeepsSane(d, ops[..|ops| - 1]);
      if m.alive {
        NextKeeps(m, op);
      }
    }
  }

  lemma NewIsSane(lastNo: nat, timeout: nat)
    requires lastNo < U32
    ensures Sane(NewDesk(lastNo, timeout))
  {
  }

  /** While conversation numbers do not repeat, a connection leaves the map only after its
      callback has run or the user has ended it. */
  lemma LeavesTheMapOnlyWhenEnded(lastNo: nat, timeout: nat, ops: seq<Op>, i: nat)
    requires lastNo < U32
    ensures var d := Run(NewDesk(lastNo, timeout), ops);
            d.alive && i < |d.conns| <= U32
            && !(d.conns[i].number in d.mapSend && d.mapSend[d.conns[i].number] == i) ==>
              d.conns[i].responses != [] || d.conns[i].userEnded
  {
    NewIsSane(lastNo, timeout);
    var d := Run(NewDesk(lastNo, timeout), ops);
    if d.alive && i < |d.conns| <= U32 {
      RunKeepsSane(NewDesk(lastNo, timeout), ops);
      hide Run;
      assert Listed(d, i) && ConnOk(d.conns[i]);
    }
  }

  /** The first clock after its time-out ends a connection and takes it out of the map. */
  lemma TimeoutEnds(lastNo: nat, timeout: nat, ops: seq<Op>, keys: seq<nat>, now: nat, closing: set<nat>, i: nat)
    requires lastNo < U32
    ensures var d := Run(NewDesk(lastNo, timeout), ops);
            var tick := DoTick(keys, now, closing);
            var u := Next(d, tick);
            Possible(d, tick) && i < |d.conns| <= U32 && TimedOut(d.conns[i], now) ==>
              && i < |u.conns| && u.conns[i].end
              && (u.conns[i].responses != [] || u.conns[i].userEnded)
              && u.conns[i].number !in u.mapSend
  {
    NewIsSane(lastNo, timeout);
    var d := Run(NewDesk(lastNo, timeout), ops);
    if Possible(d, DoTick(keys, now, closing)) && i < |d.conns| <= U32 && TimedOut(d.conns[i], now) {
      RunKeepsSane(NewDesk(lastNo, timeout), ops);
      hide Run;
      KeysAreMapped(d, keys);
      TickEnds(d, keys, now, closing, i);
    }
  }

  lemma TickEnds(d: Desk, keys: seq<nat>, now: nat, closing: set<nat>, i: nat)
    requires Sane(d) && i < |d.conns| <= U32 && forall k :: k in keys <==> k in d.mapSend
    requires TimedOut(d.conns[i], now)
    ensures var u := Tick(d, keys, now, closing);
            i < |u.conns| && u.conns[i].end && ConnOk(u.conns[i]) && u.conns[i].number !in u.mapSend
  {
    var k := d.conns[i].number;
    assert Listed(d, i);
    ClockAllKeeps(d, keys, now, closing);
    var m := ClockAll(d, keys, now, closing);
    SweptKeeps(m);
    EndsOrQueued(d, m, keys, now, i);
    if k in d.mapSend && d.mapSend[k] != i {
      NumbersDiffer(d, i, d.mapSend[k]);
    }
  }

  lemma EndsOrQueued(d: Desk, m: Desk, keys: seq<nat>, now: nat, i: nat)
    requires Sane(d) && Sane(m) && ClockMoves(d, m) && Handled(d, m, keys, now)
    requires i < |d.conns| <= U32 && TimedOut(d.conns[i], now) && forall k :: k in keys <==> k in d.mapSend
    ensures m.conns[i].end
    ensures d.conns[i].number in d.mapSend ==> d.conns[i].number in m.queueEnd
  {
    var k := d.conns[i].number;
    assert Listed(d, i) && m.conns[i].number == k;
    if k in d.mapSend {
      NumbersDiffer(d, i, d.mapSend[k]);
      assert QueuedHasEnded(m, k);
      var j :| 0 <= j < |m.conns| && m.conns[j].number == k && m.conns[j].end;
      NumbersDiffer(m, i, j);
    }
  }

  // ---- Answers are delivered ----

  /** A connection with a complete request and a complete answer has answered; one that has failed has
      ended. */
  predicate Prompt(c: Conn) {
    && (|c.chunk| <= c.offsetWrite && ReadComplete(c.received) && !c.error && !c.userEnded ==> c.calledReceive)
    && (c.error ==> c.end)
    && HasReason(c)
  }

  /** A connection ends by an answer, a failure or the user. */
  predicate HasReason(c: Conn) { c.end ==> c.calledReceive || c.error || c.userEnded }

  predicate AllPrompt(d: Desk) {
    d.alive ==> forall i :: 0 <= i < |d.conns| ==> Prompt(d.conns[i])
  }

  lemma ReactsPrompt(c: Conn)
    requires ConnOk(c) && HasReason(c)
    ensures Prompt(Reacts(c, true).0)
  {
  }

  /** Only connection `i` may have changed, and it is prompt. */
  predicate OnePrompt(d: Desk, u: Desk, i: nat) {
    && |u.conns| == |d.conns| && u.alive == d.alive && i < |d.conns|
    && (forall j :: 0 <= j < |d.conns| && j != i ==> u.conns[j] == d.conns[j])
    && (d.alive ==> Prompt(u.conns[i]))
  }

  lemma OneKeepsPrompt(d: Desk, u: Desk, i: nat)
    requires AllPrompt(d) && OnePrompt(d, u, i)
    ensures AllPrompt(u)
  {
    hide Prompt;
  }

  lemma UpdatedPrompt(d: Desk, i: nat, c: Conn)
    requires i < |d.conns| && ConnOk(c) && (d.alive ==> HasReason(c))
    ensures OnePrompt(d, Updated(WithConn(d, i, c), i), i)
  {
    if d.alive {
      ReactsPrompt(c);
    }
    hide Reacts, Prompt, ConnOk;
  }

  lemma FailedPrompt(d: Desk, i: nat)
    requires i < |d.conns| && AllOk(d) && AllPrompt(d)
    ensures OnePrompt(d, Failed(d, i), i)
  {
    assert ConnOk(d.conns[i].(error := true));
    UpdatedPrompt(d, i, d.conns[i].(error := true));
  }

  lemma WrotePrompt(d: Desk, i: nat, n: nat)
    requires i < |d.conns| && AllOk(d) && AllPrompt(d)
    ensures OnePrompt(d, Wrote(d, i, n), i)
  {
    var c := d.conns[i];
    if !WriteComplete(c) {
      var c1 := c.(offsetWrite := c.offsetWrite + Min(n, |c.chunk| - c.offsetWrite));
      assert ConnOk(c1);
      UpdatedPrompt(d, i, c1);
      hide Updated;
      assert Prompt(c) ==> WriteComplete(c1) || Prompt(c1);
    }
  }

  lemma ReadPrompt(d: Desk, i: nat, piece: seq<byte>)
    requires i < |d.conns| && AllOk(d) && AllPrompt(d)
    ensures OnePrompt(d, Read(d, i, piece), i)
  {
    var c := d.conns[i].(received := d.conns[i].received + piece);
    assert ConnOk(c);
    UpdatedPrompt(d, i, c);
    hide Updated;
  }

  lemma UserEndPrompt(d: Desk, i: nat)
    requires i < |d.conns| && AllPrompt(d)
    ensures OnePrompt(d, UserEnds(d, i), i)
  {
  }

  lemma SendPrompt(d: Desk, chunk: seq<byte>, timeout: nat, now: nat)
    requires AllPrompt(d)
    ensures AllPrompt(SendChunk(d, chunk, timeout, now))
  {
  }

  lemma ClockOnePrompt(d: Desk, k: nat, now: nat, closing: set<nat>)
    requires AllOk(d) && AllPrompt(d) && k in d.mapSend && d.mapSend[k] < |d.conns|
    ensures AllPrompt(ClockOne(d, k, now, closing))
  {
    hide AllPrompt, TimedOut, Failed;
    FailedPrompt(d, d.mapSend[k]);
    OneKeepsPrompt(d, Failed(d, d.mapSend[k]), d.mapSend[k]);
    QueueKeepsPrompt(Failed(d, d.mapSend[k]), k);
  }

  lemma QueueKeepsPrompt(d: Desk, k: nat)
    requires AllPrompt(d)
    ensures AllPrompt(d.(queueEnd := d.queueEnd + [k]))
  {
  }

  lemma {:induction false} ClockAllPrompt(d: Desk, keys: seq<nat>, now: nat, closing: set<nat>)
    requires AllOk(d) && AllPrompt(d) && MapsToConns(d) && forall k :: k in keys ==> k in d.mapSend
    ensures AllPrompt(ClockAll(d, keys, now, closing))
  {
    hide AllOk, AllPrompt, ClockOne;
    if keys != [] {
      var before := keys[..|keys| - 1];
      ClockAllPrompt(d, before, now, closing);
      ClockAllOk(d, before, now, closing);
      ClockOnePrompt(ClockAll(d, before, now, closing), keys[|keys| - 1], now, closing);
    }
  }

  lemma TickPrompt(d: Desk, keys: seq<nat>, now: nat, closing: set<nat>)
    requires AllOk(d) && AllPrompt(d) && MapsToConns(d) && forall k :: k in keys ==> k in d.mapSend
    ensures AllPrompt(Tick(d, keys, now, closing))
  {
    ClockAllPrompt(d, keys, now, closing);
  }

  lemma NextPrompt(d: Desk, op: Op)
    requires AllOk(d) && AllPrompt(d) && MapsToConns(d)
    ensures AllPrompt(Next(d, op))
  {
    hide AllOk, AllPrompt, Failed, Wrote, Read, UserEnds, SendChunk, Tick;
    if Possible(d, op) {
      match op
      case DoSend(chunk, timeout, now) => SendPrompt(d, chunk, timeout, now);
      case DoWrote(i, n) => WrotePrompt(d, i, n); OneKeepsPrompt(d, Wrote(d, i, n), i);
      case DoRead(i, piece) => ReadPrompt(d, i, piece); OneKeepsPrompt(d, Read(d, i, piece), i);
      case DoFail(i) => FailedPrompt(d, i); OneKeepsPrompt(d, Failed(d, i), i);
      case DoEnd(i) => UserEndPrompt(d, i); OneKeepsPrompt(d, UserEnds(d, i), i);
      case DoTick(keys, now, closing) => KeysAreMapped(d, keys); TickPrompt(d, keys, now, closing);
      case DoDestroy => DestroyedPrompt(d);
    }
  }

  lemma DestroyedPrompt(d: Desk)
    ensures AllPrompt(Destroyed(d))
  {
  }

  lemma {:induction false} RunPrompt(d: Desk, ops: seq<Op>)
    requires AllOk(d) && AllPrompt(d) && MapsToConns(d)
    ensures AllPrompt(Run(d, ops))
  {
    hide AllOk, AllPrompt, Next;
    if ops != [] {
      RunOk(d, ops[..|ops| - 1]);
      RunPrompt(d, ops[..|ops| - 1]);
      NextPrompt(Run(d, ops[..|ops| - 1]), ops[|ops| - 1]);
    }
  }

  /** Over every interleaving, whether the last write or the last piece comes last: a connection that
      has written its request and holds the chunk of `msg` has answered with `msg`, unless it had
      failed or the user had ended it. */
  lemma AnswerIsDelivered(lastNo: nat, timeout: nat, ops: seq<Op>, i: nat, msg: seq<byte>)
    requires lastNo < U32 && |msg| <= MESSAGE_SIZE_MAX
    ensures var d := Run(NewDesk(lastNo, timeout), ops);
            d.alive && i < |d.conns| ==>
              var c := d.conns[i];
              !c.error && !c.userEnded && |c.chunk| <= c.offsetWrite
              && WriteUint32LE(|msg|) + msg <= c.received ==>
                c.end && |c.responses| == 1 && BytesOf(c.responses[0]) == msg
  {
    RunOk(NewDesk(lastNo, timeout), ops);
    RunPrompt(NewDesk(lastNo, timeout), ops);
    hide Run;
    var d := Run(NewDesk(lastNo, timeout), ops);
    if d.alive && i < |d.conns| {
      var c := d.conns[i];
      assert ConnOk(c) && Prompt(c);
      if WriteUint32LE(|msg|) + msg <= c.received {
        PrefixYieldsMessage(msg, c.received, c.received);
        if c.calledReceive {
          PrefixYieldsMessage(msg, c.received, c.taken);
        }
      }
    }
  }

  /** A failure is answered at once: a connection of a living object that has failed has ended, and
      without an answer of the peer or the user's ending its callback has got null. */
  lemma FailureIsAnswered(lastNo: nat, timeout: nat, ops: seq<Op>, i: nat)
    requires lastNo < U32
    ensures var d := Run(NewDesk(lastNo, timeout), ops);
            d.alive && i < |d.conns| && d.conns[i].error ==>
              var c := d.conns[i];
              c.end && (!c.userEnded && !c.calledReceive ==> c.responses == [Null])
  {
    RunOk(NewDesk(lastNo, timeout), ops);
    RunPrompt(NewDesk(lastNo, timeout), ops);
    hide Run;
    var d := Run(NewDesk(lastNo, timeout), ops);
    assert d.alive && i < |d.conns| ==> ConnOk(d.conns[i]) && Prompt(d.conns[i]);
  }

  // ---- The clock leaves the others alone ----

  /** Connection `i` has waited for at most its time-out, and its transport does not give up. */
  predicate Waits(d: Desk, i: nat, now: nat, closing: set<nat>)
    requires i < |d.conns|
  {
    var c := d.conns[i];
    (now - c.timeStart) % 0x1_0000_0000 <= c.timeout && c.number !in closing
  }

  lemma {:induction false} ClockAllLeaves(d: Desk, keys: seq<nat>, now: nat, closing: set<nat>, i: nat)
    requires MapsToConns(d) && (forall k :: k in keys ==> k in d.mapSend) && Known(d)
    requires i < |d.conns| && Waits(d, i, now, closing)
    ensures ClockAll(d, keys, now, closing).conns[i] == d.conns[i]
  {
    if keys != [] {
      ClockAllLeaves(d, keys[..|keys| - 1], now, closing, i);
      var m := ClockAll(d, keys[..|keys| - 1], now, closing);
      assert m.conns[i] == d.conns[i];
    }
  }

  /** In any run the clock ends no connection before its time-out has passed, unless its transport
      gives up. */
  lemma ClockLeavesOthers(lastNo: nat, timeout: nat, ops: seq<Op>, keys: seq<nat>, now: nat, closing: set<nat>, i: nat)
    requires lastNo < U32
    ensures var d := Run(NewDesk(lastNo, timeout), ops);
            d.alive && i < |d.conns| <= U32 && Waits(d, i, now, closing) ==>
              var u := Next(d, DoTick(keys, now, closing));
              i < |u.conns| && u.conns[i] == d.conns[i]
  {
    NewIsSane(lastNo, timeout);
    var d := Run(NewDesk(lastNo, timeout), ops);
    if d.alive && i < |d.conns| <= U32 && Waits(d, i, now, closing) {
      RunKeepsSane(NewDesk(lastNo, timeout), ops);
      hide Run;
      if Possible(d, DoTick(keys, now, closing)) {
        KeysAreMapped(d, keys);
        ClockAllLeaves(d, keys, now, closing, i);
      }
    }
  }

  // ---- Who has ended leaves the map ----

  /** What has ended and is still in the map is queued for its removal. */
  predicate EndedQueued(d: Desk) {
    d.alive ==> Known(d) && forall k :: k in d.mapSend && d.conns[d.mapSend[k]].end ==> k in d.queueEnd
  }

  /** Only connection `i` may have changed; if it has ended, it is queued. */
  predicate OneQueues(d: Desk, u: Desk, i: nat) {
    && i < |d.conns| == |u.conns| && u.alive == d.alive && u.mapSend == d.mapSend
    && (forall j :: 0 <= j < |d.conns| && j != i ==> u.conns[j] == d.conns[j])
    && u.conns[i].number == d.conns[i].number
    && (forall k :: k in d.queueEnd ==> k in u.queueEnd)
    && (d.alive && u.conns[i].end && !d.conns[i].end ==> u.conns[i].number in u.queueEnd)
  }

  lemma OneKeepsQueued(d: Desk, u: Desk, i: nat)
    requires EndedQueued(d) && OneQueues(d, u, i)
    ensures EndedQueued(u)
  {
  }

  lemma UpdatedQueues(d: Desk, i: nat, c: Conn)
    requires i < |d.conns| && c.number == d.conns[i].number && c.end == d.conns[i].end
    ensures OneQueues(d, WithConn(d, i, c), i) && OneQueues(d, Updated(WithConn(d, i, c), i), i)
  {
  }

  lemma WroteQueues(d: Desk, i: nat, n: nat)
    requires i < |d.conns|
    ensures OneQueues(d, Wrote(d, i, n), i)
  {
    var c := d.conns[i];
    UpdatedQueues(d, i, c);
    if !WriteComplete(c) {
      UpdatedQueues(d, i, c.(offsetWrite := c.offsetWrite + Min(n, |c.chunk| - c.offsetWrite)));
    }
    hide Updated;
  }

  lemma ReadQueues(d: Desk, i: nat, piece: seq<byte>)
    requires i < |d.conns|
    ensures OneQueues(d, Read(d, i, piece), i)
  {
    UpdatedQueues(d, i, d.conns[i].(received := d.conns[i].received + piece));
    hide Updated;
  }

  lemma FailedQueues(d: Desk, i: nat)
    requires i < |d.conns|
    ensures OneQueues(d, Failed(d, i), i)
  {
    UpdatedQueues(d, i, d.conns[i].(error := true));
    hide Updated;
  }

  lemma UserEndQueues(d: Desk, i: nat)
    requires i < |d.conns|
    ensures OneQueues(d, UserEnds(d, i), i)
  {
  }

  lemma ClockOneQueues(d: Desk, k: nat, now: nat, closing: set<nat>)
    requires EndedQueued(d) && k in d.mapSend && d.mapSend[k] < |d.conns|
    ensures EndedQueued(ClockOne(d, k, now, closing))
  {
    hide TimedOut, Failed;
    FailedQueues(d, d.mapSend[k]);
    OneKeepsQueued(d, Failed(d, d.mapSend[k]), d.mapSend[k]);
  }

  lemma {:induction false} ClockAllQueues(d: Desk, keys: seq<nat>, now: nat, closing: set<nat>)
    requires EndedQueued(d) && MapsToConns(d) && forall k :: k in keys ==> k in d.mapSend
    ensures EndedQueued(ClockAll(d, keys, now, closing))
  {
    hide EndedQueued, ClockOne;
    if keys != [] {
      ClockAllQueues(d, keys[..|keys| - 1], now, closing);
      ClockOneQueues(ClockAll(d, keys[..|keys| - 1], now, closing), keys[|keys| - 1], now, closing);
    }
  }

  lemma TickQueues(d: Desk, keys: seq<nat>, now: nat, closing: set<nat>)
    requires EndedQueued(d) && MapsToConns(d) && forall k :: k in keys ==> k in d.mapSend
    ensures var u := Tick(d, keys, now, closing);
            && EndedQueued(u)
            && (u.alive ==> forall k :: k in u.mapSend ==> u.mapSend[k] < |u.conns| && !u.conns[u.mapSend[k]].end)
  {
    ClockAllQueues(d, keys, now, closing);
    hide ClockAll;
  }

  lemma SendQueues(d: Desk, chunk: seq<byte>, timeout: nat, now: nat)
    requires EndedQueued(d)
    ensures EndedQueued(SendChunk(d, chunk, timeout, now))
  {
  }

  lemma NextQueues(d: Desk, op: Op)
    requires EndedQueued(d) && MapsToConns(d)
    ensures EndedQueued(Next(d, op))
  {
    hide EndedQueued, Failed, Wrote, Read, UserEnds, SendChunk, Tick;
    if Possible(d, op) {
      match op
      case DoSend(chunk, timeout, now) => SendQueues(d, chunk, timeout, now);
      case DoWrote(i, n) => WroteQueues(d, i, n); OneKeepsQueued(d, Wrote(d, i, n), i);
      case DoRead(i, piece) => ReadQueues(d, i, piece); OneKeepsQueued(d, Read(d, i, piece), i);
      case DoFail(i) => FailedQueues(d, i); OneKeepsQueued(d, Failed(d, i), i);
      case DoEnd(i) => UserEndQueues(d, i); OneKeepsQueued(d, UserEnds(d, i), i);
      case DoTick(keys, now, closing) => KeysAreMapped(d, keys); TickQueues(d, keys, now, closing);
      case DoDestroy => DestroyedQueues(d);
    }
  }

  lemma DestroyedQueues(d: Desk)
    ensures EndedQueued(Destroyed(d))
  {
  }

  lemma {:induction false} RunQueues(d: Desk, ops: seq<Op>)
    requires EndedQueued(d) && MapsToConns(d)
    ensures EndedQueued(Run(d, ops))
  {
    hide EndedQueued, Next;
    if ops != [] {
      RunQueues(d, ops[..|ops| - 1]);
      NextQueues(Run(d, ops[..|ops| - 1]), ops[|ops| - 1]);
    }
  }

  /** After the clock has been served only connections that are under way are in the map: whoever has
      answered, failed or been ended by the user since the last time has left it. */
  lemma EndedLeaveTheMap(lastNo: nat, timeout: nat, ops: seq<Op>, tick: Op)
    requires lastNo < U32 && tick.DoTick?
    ensures var d := Run(NewDesk(lastNo, timeout), ops);
            var u := Next(d, tick);
            Possible(d, tick) ==>
              forall k :: k in u.mapSend ==>
                && u.mapSend[k] < |u.conns| && u.conns[u.mapSend[k]].number == k
                && u.conns[u.mapSend[k]].responses == [] && !u.conns[u.mapSend[k]].userEnded
  {
    RunQueues(NewDesk(lastNo, timeout), ops);
    RunOk(NewDesk(lastNo, timeout), ops + [tick]);
    assert (ops + [tick])[..|ops + [tick]| - 1] == ops;
    var d := Run(NewDesk(lastNo, timeout), ops);
    var u := Next(d, tick);
    if Possible(d, tick) {
      KeysAreMapped(d, tick.keys);
      TickQueues(d, tick.keys, tick.now, tick.closing);
      TickLives(d, tick.keys, tick.now, tick.closing);
      hide Run, Tick;
      assert forall k :: k in u.mapSend ==> ConnOk(u.conns[u.mapSend[k]]);
    }
  }

  lemma TickLives(d: Desk, keys: seq<nat>, now: nat, closing: set<nat>)
    requires MapsToConns(d) && forall k :: k in keys ==> k in d.mapSend
    ensures Tick(d, keys, now, closing).alive == d.alive
  {
    ClockAllAlive(d, keys, now, closing);
    hide ClockAll;
  }

  /** Of `keys`, the connections that `closing` gives up have ended in `u`. */
  predicate GivenUp(d: Desk, u: Desk, keys: seq<nat>, closing: set<nat>)
    requires MapsToConns(d)
  {
    forall k :: k in keys && k in d.mapSend && k in closing ==> d.mapSend[k] < |u.conns| && u.conns[d.mapSend[k]].end
  }

  lemma GivenUpMore(d: Desk, m: Desk, u: Desk, keys: seq<nat>, closing: set<nat>)
    requires MapsToConns(d) && ClockMoves(d, m) && ClockMoves(m, u) && keys != []
    requires GivenUp(d, m, keys[..|keys| - 1], closing)
    requires var k := keys[|keys| - 1];
             k in d.mapSend && (k in closing ==> u.conns[d.mapSend[k]].end)
    ensures GivenUp(d, u, keys, closing)
  {
    var before := keys[..|keys| - 1];
    forall k | k in keys && k in d.mapSend && k in closing ensures u.conns[d.mapSend[k]].end {
      assert k in before || k == keys[|keys| - 1];
    }
  }

  lemma ClockOneGivesUp(d: Desk, k: nat, now: nat, closing: set<nat>)
    requires Sane(d) && k in d.mapSend
    ensures d.mapSend[k] < |d.conns|
    ensures k in closing ==> ClockOne(d, k, now, closing).conns[d.mapSend[k]].end
  {
    FailedKeeps(d, d.mapSend[k]);
    hide Failed, TimedOut, AllOk, Numbered;
  }

  lemma {:induction false} ClockAllGivesUp(d: Desk, keys: seq<nat>, now: nat, closing: set<nat>)
    requires Sane(d) && forall k :: k in keys ==> k in d.mapSend
    ensures MapsToConns(d) && GivenUp(d, ClockAll(d, keys, now, closing), keys, closing)
  {
    assert MapsToConns(d);
    if keys != [] {
      var before := keys[..|keys| - 1];
      hide Sane, ClockOne, GivenUp, MapsToConns;
      ClockAllGivesUp(d, before, now, closing);
      ClockAllKeeps(d, before, now, closing);
      var m := ClockAll(d, before, now, closing);
      ClockOneKeeps(m, keys[|keys| - 1], now, closing);
      ClockOneGivesUp(m, keys[|keys| - 1], now, closing);
      GivenUpMore(d, m, ClockAll(d, keys, now, closing), keys, closing);
    }
  }

  /** The clock ends a connection whose transport gives up, answers it unless the user has ended it, and
      takes it out of the map. */
  lemma GivenUpIsAnswered(lastNo: nat, timeout: nat, ops: seq<Op>, tick: Op, i: nat)
    requires lastNo < U32 && tick.DoTick?
    ensures var d := Run(NewDesk(lastNo, timeout), ops);
            var u := Next(d, tick);
            Possible(d, tick) && i < |d.conns| <= U32 && d.conns[i].number in tick.closing ==>
              && i < |u.conns| && u.conns[i].end && (u.conns[i].responses != [] || u.conns[i].userEnded)
              && u.conns[i].number !in u.mapSend
  {
    NewIsSane(lastNo, timeout);
    var d := Run(NewDesk(lastNo, timeout), ops);
    if Possible(d, tick) && i < |d.conns| <= U32 && d.conns[i].number in tick.closing {
      RunKeepsSane(NewDesk(lastNo, timeout), ops);
      RunQueues(NewDesk(lastNo, timeout), ops);
      hide Run;
      KeysAreMapped(d, tick.keys);
      TickGivesUp(d, tick.keys, tick.now, tick.closing, i);
    }
  }

  lemma TickGivesUp(d: Desk, keys: seq<nat>, now: nat, closing: set<nat>, i: nat)
    requires Sane(d) && EndedQueued(d) && i < |d.conns| <= U32 && forall k :: k in keys <==> k in d.mapSend
    requires d.conns[i].number in closing
    ensures var u := Tick(d, keys, now, closing);
            i < |u.conns| && u.conns[i].end && ConnOk(u.conns[i]) && u.conns[i].number !in u.mapSend
  {
    var k := d.conns[i].number;
    assert Listed(d, i);
    ClockAllKeeps(d, keys, now, closing);
    ClockAllGivesUp(d, keys, now, closing);
    var m := ClockAll(d, keys, now, closing);
    if k in d.mapSend {
      NumbersDiffer(d, i, d.mapSend[k]);
    }
    assert m.conns[i].end && m.conns[i].number == k;
    SweptKeeps(m);
    TickQueues(d, keys, now, closing);
    TickLives(d, keys, now, closing);
  }

  // ---- What a connection was made for ----

  /** A request: its chunk, and when and for how long its answer is waited for. */
  datatype Order = Order(chunk: seq<byte>, timeStart: nat, timeout: nat)

  /** The requests that the object has taken; without a time-out of its own one gets the object's. */
  function Orders(d: Desk, ops: seq<Op>): seq<Order>
    requires MapsToConns(d)
  {
    if ops == [] then []
    else
      var (before, op) := (ops[..|ops| - 1], ops[|ops| - 1]);
      Orders(d, before)
      + (if op.DoSend? && Run(d, before).alive
         then [Order(op.chunk, op.now, if op.timeout != 0 then op.timeout else d.timeout)] else [])
  }

  predicate Serves(c: Conn, o: Order) { c.chunk == o.chunk && c.timeStart == o.timeStart && c.timeout == o.timeout }

  predicate AllServe(d: Desk, orders: seq<Order>) {
    |d.conns| == |orders| && forall i :: 0 <= i < |orders| ==> Serves(d.conns[i], orders[i])
  }

  /** The connections serve what they served before. */
  predicate SameOrders(d: Desk, u: Desk) {
    && u.timeout == d.timeout && |u.conns| == |d.conns|
    && forall i {:trigger u.conns[i]} :: 0 <= i < |d.conns| ==>
         && u.conns[i].chunk == d.conns[i].chunk && u.conns[i].timeStart == d.conns[i].timeStart
         && u.conns[i].timeout == d.conns[i].timeout
  }

  lemma UpdatedSameOrders(d: Desk, i: nat)
    requires i < |d.conns|
    ensures SameOrders(d, Updated(d, i))
  {
  }

  lemma {:induction false} ClockAllSameOrders(d: Desk, keys: seq<nat>, now: nat, closing: set<nat>)
    requires MapsToConns(d) && forall k :: k in keys ==> k in d.mapSend
    ensures SameOrders(d, ClockAll(d, keys, now, closing))
  {
    if keys != [] {
      ClockAllSameOrders(d, keys[..|keys| - 1], now, closing);
      var m := ClockAll(d, keys[..|keys| - 1], now, closing);
      var i := m.mapSend[keys[|keys| - 1]];
      UpdatedSameOrders(WithConn(m, i, m.conns[i].(error := true)), i);
      hide Updated, TimedOut;
    }
  }

  lemma WroteSameOrders(d: Desk, i: nat, n: nat)
    requires i < |d.conns|
    ensures SameOrders(d, Wrote(d, i, n))
  {
    var c := d.conns[i];
    if !WriteComplete(c) {
      UpdatedSameOrders(WithConn(d, i, c.(offsetWrite := c.offsetWrite + Min(n, |c.chunk| - c.offsetWrite))), i);
    }
    hide Updated;
  }

  lemma NextSameOrders(d: Desk, op: Op)
    requires MapsToConns(d) && !op.DoSend?
    ensures SameOrders(d, Next(d, op))
  {
    if Possible(d, op) {
      hide Updated, Wrote, WriteComplete, ReadComplete;
      match op
      case DoWrote(i, n) =>
        WroteSameOrders(d, i, n);
      case DoRead(i, piece) =>
        UpdatedSameOrders(WithConn(d, i, d.conns[i].(received := d.conns[i].received + piece)), i);
      case DoFail(i) => UpdatedSameOrders(WithConn(d, i, d.conns[i].(error := true)), i);
      case DoEnd(i) =>
      case DoTick(keys, now, closing) =>
        KeysAreMapped(d, keys);
        ClockAllSameOrders(d, keys, now, closing);
        hide ClockAll;
      case DoDestroy =>
    }
  }

  /** Over every interleaving the connections are those of the requests, one for each and in their
      order: each sends the chunk of its request, and waits from then on for the time asked for. */
  lemma {:induction false} ConnectionsServeRequests(lastNo: nat, timeout: nat, ops: seq<Op>)
    requires lastNo < U32
    ensures var d := Run(NewDesk(lastNo, timeout), ops);
            d.timeout == timeout && AllServe(d, Orders(NewDesk(lastNo, timeout), ops))
  {
    if ops != [] {
      var before, op := ops[..|ops| - 1], ops[|ops| - 1];
      ConnectionsServeRequests(lastNo, timeout, before);
      if !op.DoSend? {
        NextSameOrders(Run(NewDesk(lastNo, timeout), before), op);
        hide Next;
      }
    }
  }

  // ---- When the object is gone ----

  /** `op` updates connection `i`: it fails, or its answer or its request becomes complete. */
  predicate Updates(d: Desk, i: nat, op: Op)
    requires i < |d.conns|
  {
    var c := d.conns[i];
    match op
    case DoFail(j) => j == i
    case DoRead(j, piece) => j == i && ReadComplete(c.received + piece)
    case DoWrote(j, n) => j == i && c.offsetWrite < |c.chunk| <= c.offsetWrite + n
    case _ => false
  }

  /** A connection that outlives the object answers null with its next update. */
  lemma OrphanIsAnswered(lastNo: nat, timeout: nat, ops: seq<Op>, op: Op, i: nat)
    requires lastNo < U32
    ensures var d := Run(NewDesk(lastNo, timeout), ops);
            !d.alive && i < |d.conns| && !d.conns[i].end && Updates(d, i, op) ==>
              var u := Next(d, op);
              i < |u.conns| && u.conns[i].end && u.conns[i].responses == [Null]
  {
    RunOk(NewDesk(lastNo, timeout), ops);
    hide Run;
    var d := Run(NewDesk(lastNo, timeout), ops);
    if i < |d.conns| {
      assert ConnOk(d.conns[i]);
    }
  }

  // ---- When conversation numbers repeat ----

  function Sends(n: nat): seq<Op> { seq(n, _ => DoSend([], 1, 0)) }

  lemma {:induction false} AfterSends(lastNo: nat, n: nat)
    requires lastNo < U32
    ensures var d := Run(NewDesk(lastNo, 1), Sends(n));
            && |d.conns| == n && d.alive && Numbered(d)
            && (forall i :: 0 <= i < n ==> d.conns[i].responses == [] && !d.conns[i].userEnded)
            && (n > 0 ==> d.conns[n - 1].number in d.mapSend && d.mapSend[d.conns[n - 1].number] == n - 1)
  {
    if n > 0 {
      AfterSends(lastNo, n - 1);
      assert Sends(n)[..n - 1] == Sends(n - 1);
      SendIsNumbered(Run(NewDesk(lastNo, 1), Sends(n - 1)), [], 1, 0);
      hide Numbered;
    }
  }

  /** The bound in `LeavesTheMapOnlyWhenEnded` is exact: any number of messages above 2^32, sent
      without a pause, pushes out a connection that has not ended and has not answered. */
  lemma RepeatedNumberPushesOut(lastNo: nat, n: nat)
    requires lastNo < U32 && n > U32
    ensures var d := Run(NewDesk(lastNo, 1), Sends(n));
            var i := n - 1 - U32;
            && d.alive && |d.conns| == n
            && d.conns[i].responses == [] && !d.conns[i].userEnded
            && !(d.conns[i].number in d.mapSend && d.mapSend[d.conns[i].number] == i)
  {
    AfterSends(lastNo, n);
    var d := Run(NewDesk(lastNo, 1), Sends(n));
    hide Run;
    assert d.conns[n - 1 - U32].number == Wrap32(d.lastNo - U32) == Wrap32(d.lastNo) == d.conns[n - 1].number;
  }
}
