/** The object of extra/pseudo_tcp/pseudo_tcp_message.cpp that sends messages: every method does
    to its fields what the function of the same name does to a `Desk`. */
module PseudoTcpMessages {
  import opened Numbers
  import opened FifoBuffers
  import opened TcpTypes
  import opened MessageFraming
  import opened MessageSending

  class PseudoTcpMessage {
    var conns: seq<Conn>
    var mapSend: map<nat, nat>
    var queueEnd: seq<nat>
    var lastNo: nat
    var timeout: nat
    var alive: bool

    ghost function State(): Desk
      reads this
    {
      Desk(conns, mapSend, queueEnd, lastNo, timeout, alive)
    }

    constructor (lastNo: nat, timeout: nat)
      requires lastNo < U32
      ensures State() == NewDesk(lastNo, timeout)
    {
      conns, mapSend, queueEnd := [], map[], [];
      this.lastNo, this.timeout, alive := lastNo, timeout, true;
    }

    /** The connection is told to end; its number is queued for removal. */
    method EndSendingConnection(i: nat)
      requires i < |conns|
      modifies `conns, `queueEnd
      ensures conns == old(conns)[i := old(conns)[i].(end := true)]
      ensures queueEnd == old(queueEnd) + [old(conns)[i].number]
    {
      conns := conns[i := conns[i].(end := true)];
      queueEnd := queueEnd + [conns[i].number];
    }

    method CallResponse(i: nat, m: Memory)
      requires i < |conns|
      modifies `conns
      ensures conns == old(conns)[i := old(conns)[i].(responses := old(conns)[i].responses + [m])]
    {
      conns := conns[i := conns[i].(responses := conns[i].responses + [m])];
    }

    /** The update callback of connection `i`. */
    method OnUpdate(i: nat)
      requires i < |conns|
      modifies `conns, `queueEnd
      ensures State() == Updated(old(State()), i)
    {
      if conns[i].end {
        assert conns == conns[i := conns[i]];
        return;
      }
      if !alive {
        conns := conns[i := conns[i].(end := true)];
        CallResponse(i, Null);
        return;
      }
      if conns[i].error {
        EndSendingConnection(i);
        CallResponse(i, Null);
        return;
      }
      if conns[i].offsetWrite >= |conns[i].chunk| && ReadComplete(conns[i].received) && !conns[i].calledReceive {
        var received := conns[i].received;
        conns := conns[i := conns[i].(calledReceive := true, taken := received)];
        EndSendingConnection(i);
        CallResponse(i, ReceivedData(received));
        return;
      }
      assert conns == conns[i := conns[i]];
    }

    method OnTcpClosed(i: nat)
      requires i < |conns|
      modifies `conns, `queueEnd
      ensures State() == Failed(old(State()), i)
    {
      hide Updated;
      conns := conns[i := conns[i].(error := true)];
      OnUpdate(i);
    }

    /** The transport has taken `n` bytes more of the chunk, if any were left. */
    method OnTcpWriteable(i: nat, n: nat)
      requires i < |conns|
      modifies `conns, `queueEnd
      ensures State() == Wrote(old(State()), i, n)
    {
      hide Updated;
      var c := conns[i];
      if c.offsetWrite >= |c.chunk| {
        return;
      }
      conns := conns[i := c.(offsetWrite := c.offsetWrite + Min(n, |c.chunk| - c.offsetWrite))];
      if conns[i].offsetWrite >= |c.chunk| {
        OnUpdate(i);
      }
    }

    method OnTcpReadable(i: nat, piece: seq<byte>)
      requires i < |conns|
      modifies `conns, `queueEnd
      ensures State() == Read(old(State()), i, piece)
    {
      hide Updated;
      conns := conns[i := conns[i].(received := conns[i].received + piece)];
      if ReadComplete(conns[i].received) {
        OnUpdate(i);
      }
    }

    method EndConnection(i: nat)
      requires i < |conns|
      modifies `conns, `queueEnd
      ensures State() == UserEnds(old(State()), i)
    {
      conns := conns[i := conns[i].(userEnded := true)];
      EndSendingConnection(i);
    }

    /** Start to send a chunk; without one the callback runs at once. */
    method SendMessageChunk(chunk: Memory, timeout: nat, now: nat) returns (response: seq<Memory>)
      modifies this
      ensures response == if chunk.Null? then [Null] else []
      ensures State() == if chunk.Null? then old(State()) else SendChunk(old(State()), chunk.bytes, timeout, now)
    {
      if chunk.Null? {
        return [Null];
      }
      var wait := if timeout == 0 then this.timeout else timeout;
      lastNo := Wrap32(lastNo + 1);
      mapSend := mapSend[lastNo := |conns|];
      conns := conns + [Conn(lastNo, now, wait, chunk.bytes, 0, [], false, false, false, [], [], false)];
      response := [];
    }

    /** A message that is too long gets no chunk. */
    method SendMessage(data: seq<byte>, timeout: nat, now: nat) returns (response: seq<Memory>)
      modifies this
      ensures response == if |data| > MESSAGE_SIZE_MAX then [Null] else []
      ensures State() == if |data| > MESSAGE_SIZE_MAX then old(State())
                         else SendChunk(old(State()), WriteUint32LE(|data|) + data, timeout, now)
    {
      if |data| > MESSAGE_SIZE_MAX {
        return [Null];
      }
      response := SendMessageChunk(CreateMessageChunk(data), timeout, now);
    }

    method Clock(k: nat, now: nat, closing: set<nat>)
      requires k in mapSend && mapSend[k] < |conns|
      modifies `conns, `queueEnd
      ensures State() == ClockOne(old(State()), k, now, closing)
    {
      hide Failed;
      var i := mapSend[k];
      if Wrap32(now - conns[i].timeStart) > conns[i].timeout {
        OnTcpClosed(i);
        queueEnd := queueEnd + [k];
      } else if k in closing {
        OnTcpClosed(i);
      }
    }

    /** One round of the process loop: `keys` are the map's nodes in its order, `closing` those
        whose transport gives up when it is told the time. */
    method Process(keys: seq<nat>, now: nat, closing: set<nat>)
      requires MapsToConns(State()) && forall k :: k in keys ==> k in mapSend
      modifies `conns, `queueEnd, `mapSend
      ensures State() == Tick(old(State()), keys, now, closing)
    {
      var n := 0;
      while n < |keys|
        invariant n <= |keys| && MapsToConns(State()) && mapSend == old(mapSend)
        invariant State() == ClockAll(old(State()), keys[..n], now, closing)
      {
        assert keys[..n + 1][..n] == keys[..n];
        Clock(keys[n], now, closing);
        n := n + 1;
      }
      assert keys[..n] == keys;
      Sweep();
    }

    method Sweep()
      modifies `mapSend, `queueEnd
      ensures State() == Swept(old(State()))
    {
      ghost var left := old(mapSend);
      var n := 0;
      while n < |queueEnd|
        invariant n <= |queueEnd| && queueEnd == old(queueEnd)
        invariant mapSend == map k | k in left && k !in queueEnd[..n] :: left[k]
      {
        assert queueEnd[..n + 1] == queueEnd[..n] + [queueEnd[n]];
        mapSend := mapSend - {queueEnd[n]};
        n := n + 1;
      }
      assert queueEnd[..n] == queueEnd;
      queueEnd := [];
    }
  }
}
